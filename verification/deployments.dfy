/**
  The deployment value record: four nullable properties, with an identity
  given by the uid alone (`equals` and `hashCode` look at nothing else).
 */
module Deployments {
  import opened JavaText

  datatype State = DEPLOYING | BOOTED | BUILDING | BUILD_ERROR | READY | FROZEN | DEPLOYMENT_ERROR

  /** The constants of the `State` enum, in declaration order. */
  const STATES: seq<State> := [DEPLOYING, BOOTED, BUILDING, BUILD_ERROR, READY, FROZEN, DEPLOYMENT_ERROR]

  datatype Deployment = Deployment(uid: Option<string>, host: Option<string>, state: Option<State>, stateTs: Option<string>)

  /** The properties with a getter and a setter. */
  datatype Field = Uid | Host | StateOf | StateTs

  /** What a getter returns or a setter takes. */
  datatype FieldValue = Text(text: Option<string>) | Phase(phase: Option<State>)

  predicate Fits(f: Field, v: FieldValue) {
    if f == StateOf then v.Phase? else v.Text?
  }

  function Get(d: Deployment, f: Field): (v: FieldValue)
    ensures Fits(f, v)
  {
    match f
    case Uid => Text(d.uid)
    case Host => Text(d.host)
    case StateOf => Phase(d.state)
    case StateTs => Text(d.stateTs)
  }

  function Set(d: Deployment, f: Field, v: FieldValue): Deployment
    requires Fits(f, v)
  {
    match f
    case Uid => d.(uid := v.text)
    case Host => d.(host := v.text)
    case StateOf => d.(state := v.phase)
    case StateTs => d.(stateTs := v.text)
  }

  /** `equals(Object)`: same reference, or another deployment with a null-safe equal uid. */
  predicate Equals(d: Deployment, o: Obj<Deployment>) {
    match o
    case NullRef => false
    case OtherClass => false
    case Instance(e) => NullSafeEquals(d.uid, e.uid)
  }

  /** `hashCode()`: the uid's hash, or 0 for a null uid. `stringHash` stands for `String.hashCode`. */
  function HashCode(d: Deployment, stringHash: string -> int): int {
    match d.uid
    case None => 0
    case Some(u) => stringHash(u)
  }

  lemma StatesEnumerated()
    ensures |STATES| == 7
    ensures forall i, j :: 0 <= i < j < |STATES| ==> STATES[i] != STATES[j]
    ensures forall s: State :: s in STATES
  {
    forall s: State ensures s in STATES {
      match s
      case DEPLOYING => case BOOTED => case BUILDING => case BUILD_ERROR =>
      case READY => case FROZEN => case DEPLOYMENT_ERROR =>
    }
  }

  /** Each setter followed by a getter returns the value set, and no other property changes. */
  lemma GetAfterSet(d: Deployment, f: Field, v: FieldValue, g: Field)
    requires Fits(f, v)
    ensures Get(Set(d, f, v), g) == if g == f then v else Get(d, g)
  {
  }

  /** Two deployments are equal exactly when their uids are, null being equal to null. */
  lemma EqualsIffSameUid(d: Deployment, e: Deployment)
    ensures Equals(d, Instance(e)) <==> Get(d, Uid) == Get(e, Uid)
  {
  }

  /** Host, state and state timestamp play no part in equality, on either side. */
  lemma EqualsIgnoresOtherFields(d: Deployment, e: Deployment, f: Field, v: FieldValue)
    requires f != Uid && Fits(f, v)
    ensures Equals(Set(d, f, v), Instance(e)) == Equals(d, Instance(e))
    ensures Equals(d, Instance(Set(e, f, v))) == Equals(d, Instance(e))
  {
  }

  /** Equality is reflexive, symmetric and transitive, and never holds for null or another class. */
  lemma EqualsIsEquivalence(a: Deployment, b: Deployment, c: Deployment)
    ensures Equals(a, Instance(a))
    ensures Equals(a, Instance(b)) ==> Equals(b, Instance(a))
    ensures Equals(a, Instance(b)) && Equals(b, Instance(c)) ==> Equals(a, Instance(c))
    ensures !Equals(a, NullRef) && !Equals(a, OtherClass)
  {
  }

  /** Equal deployments have equal hash codes; a null uid hashes to 0. */
  lemma HashCodeConsistent(d: Deployment, e: Deployment, stringHash: string -> int)
    ensures Equals(d, Instance(e)) ==> HashCode(d, stringHash) == HashCode(e, stringHash)
    ensures d.uid.None? ==> HashCode(d, stringHash) == 0
  {
  }
}
