/** `ResolveError` of rustdi/src/resolve_error.rs: the closed set of
    resolution failures and the message `Display` prints for each. */
module ResolveErrors {
  import opened Results

  datatype ResolveError = NonExist | Poisoned | MutImmutable | OwnedMutable | OwnedImmutable

  /** Every case, once each. */
  const AllErrors: seq<ResolveError> := [NonExist, Poisoned, MutImmutable, OwnedMutable, OwnedImmutable]

  /** `Display::fmt`, as the plain string it writes. */
  function Message(e: ResolveError): string {
    match e
    case NonExist => "Tried to resolve a non-existent service"
    case Poisoned => "Tried to resolve a service whose lock is poisoned"
    case MutImmutable => "Tried to get mutable reference to immutable service"
    case OwnedMutable => "Tried to get owned value from mutable singleton service"
    case OwnedImmutable => "Tried to get owned value from immutable singleton service"
  }

  /** The kind of access a caller asked for. */
  datatype AccessMode = ImmutableRef | MutableRef | OwnedValue

  /** Whether a singleton was registered mutable (behind a lock) or not. */
  datatype Mutability = Immutable | Mutable

  /** The situation a message describes. */
  datatype Failure =
    | Missing
    | LockPoisoned
    | Refused(requested: AccessMode, service: Mutability)

  /** What each case means, read off its message. */
  function Meaning(e: ResolveError): Failure {
    match e
    case NonExist => Missing
    case Poisoned => LockPoisoned
    case MutImmutable => Refused(MutableRef, Immutable)
    case OwnedMutable => Refused(OwnedValue, Mutable)
    case OwnedImmutable => Refused(OwnedValue, Immutable)
  }

  /** The case that reports a situation, if the taxonomy has one. */
  function ErrorFor(f: Failure): Option<ResolveError> {
    match f
    case Missing => Some(NonExist)
    case LockPoisoned => Some(Poisoned)
    case Refused(MutableRef, Immutable) => Some(MutImmutable)
    case Refused(OwnedValue, Mutable) => Some(OwnedMutable)
    case Refused(OwnedValue, Immutable) => Some(OwnedImmutable)
    case Refused(_, _) => None
  }

  /** The set of cases is closed: exactly the five listed, all different. */
  lemma ErrorSetIsClosed(e: ResolveError)
    ensures e in AllErrors
    ensures |AllErrors| == 5
    ensures forall i, j :: 0 <= i < j < |AllErrors| ==> AllErrors[i] != AllErrors[j]
  {
  }

  /** `Display` is injective: no two cases print the same message. */
  lemma MessagesAreDistinct(a: ResolveError, b: ResolveError)
    ensures Message(a) == Message(b) ==> a == b
  {
  }

  /** `Meaning` and `ErrorFor` are inverse: each case means one situation, and
      that situation is reported by that case and no other. */
  lemma MeaningRoundTrip(e: ResolveError, f: Failure)
    ensures ErrorFor(Meaning(e)) == Some(e)
    ensures ErrorFor(f) == Some(e) <==> Meaning(e) == f
  {
  }

  /** Immutable access is never refused: no case reports it, whatever the
      service's mutability. A refused mutable reference is reported exactly
      when the service is immutable. */
  lemma ImmutableRefNeverRefused(m: Mutability)
    ensures ErrorFor(Refused(ImmutableRef, m)) == None
    ensures ErrorFor(Refused(MutableRef, m)).Some? <==> m == Immutable
  {
  }
}
