/**
  The domain value record: seven nullable properties, all of which take
  part in `equals` and `hashCode`.
 */
module Domains {
  import opened JavaText

  /** `created` is a `ZonedDateTime`; it is kept as its ISO-8601 text, which determines its `equals`. */
  datatype Domain = Domain(
    uid: Option<string>,
    verified: Option<bool>,
    verifyToken: Option<string>,
    created: Option<string>,
    isExternal: Option<bool>,
    name: Option<string>,
    aliases: Option<seq<string>>)

  /** The properties, in declaration order. */
  datatype Field = Uid | Verified | VerifyToken | Created | IsExternal | Name | Aliases

  const FIELDS: seq<Field> := [Uid, Verified, VerifyToken, Created, IsExternal, Name, Aliases]

  datatype FieldValue =
    | Text(text: Option<string>)
    | Flag(flag: Option<bool>)
    | Instant(instant: Option<string>)
    | Names(names: Option<seq<string>>)

  predicate Fits(f: Field, v: FieldValue) {
    match f
    case Verified | IsExternal => v.Flag?
    case Created => v.Instant?
    case Aliases => v.Names?
    case Uid | VerifyToken | Name => v.Text?
  }

  predicate IsNull(v: FieldValue) {
    match v
    case Text(x) => x.None?
    case Flag(x) => x.None?
    case Instant(x) => x.None?
    case Names(x) => x.None?
  }

  function Get(d: Domain, f: Field): (v: FieldValue)
    ensures Fits(f, v)
  {
    match f
    case Uid => Text(d.uid)
    case Verified => Flag(d.verified)
    case VerifyToken => Text(d.verifyToken)
    case Created => Instant(d.created)
    case IsExternal => Flag(d.isExternal)
    case Name => Text(d.name)
    case Aliases => Names(d.aliases)
  }

  function Set(d: Domain, f: Field, v: FieldValue): Domain
    requires Fits(f, v)
  {
    match f
    case Uid => d.(uid := v.text)
    case Verified => d.(verified := v.flag)
    case VerifyToken => d.(verifyToken := v.text)
    case Created => d.(created := v.instant)
    case IsExternal => d.(isExternal := v.flag)
    case Name => d.(name := v.text)
    case Aliases => d.(aliases := v.names)
  }

  /** A fresh `new Domain()`: every property null. */
  const EMPTY: Domain := Domain(None, None, None, None, None, None, None)

  /** `equals(Object)`: the field-by-field null-safe comparison, in declaration order. */
  predicate Equals(d: Domain, o: Obj<Domain>) {
    match o
    case NullRef => false
    case OtherClass => false
    case Instance(e) =>
      && NullSafeEquals(d.uid, e.uid)
      && NullSafeEquals(d.verified, e.verified)
      && NullSafeEquals(d.verifyToken, e.verifyToken)
      && NullSafeEquals(d.created, e.created)
      && NullSafeEquals(d.isExternal, e.isExternal)
      && NullSafeEquals(d.name, e.name)
      && NullSafeEquals(d.aliases, e.aliases)
  }

  /**
    `hashCode()`: the 31-fold of the field hashes in declaration order,
    a null field contributing 0. `fieldHash` stands for the `hashCode`
    of a non-null property value.
   */
  function HashCode(d: Domain, fieldHash: FieldValue -> int): (h: int)
    ensures IsInt32(h)
  {
    HashFold(seq(|FIELDS|, i requires 0 <= i < |FIELDS| =>
      var v := Get(d, FIELDS[i]); if IsNull(v) then 0 else fieldHash(v)))
  }

  /** Each setter followed by a getter returns the value set, and no other property changes. */
  lemma GetAfterSet(d: Domain, f: Field, v: FieldValue, g: Field)
    requires Fits(f, v)
    ensures Get(Set(d, f, v), g) == if g == f then v else Get(d, g)
  {
  }

  /** Two domains are equal exactly when every property is, which is exactly when they are the same value. */
  lemma {:induction false} EqualsIffFieldwise(d: Domain, e: Domain)
    ensures Equals(d, Instance(e)) <==> (forall f: Field :: Get(d, f) == Get(e, f))
    ensures Equals(d, Instance(e)) <==> d == e
  {
    if forall f: Field :: Get(d, f) == Get(e, f) {
      assert Get(d, Uid) == Get(e, Uid) && Get(d, Verified) == Get(e, Verified);
      assert Get(d, VerifyToken) == Get(e, VerifyToken) && Get(d, Created) == Get(e, Created);
      assert Get(d, IsExternal) == Get(e, IsExternal) && Get(d, Name) == Get(e, Name);
      assert Get(d, Aliases) == Get(e, Aliases);
    }
  }

  /** A domain is equal to itself and never to null or to an object of another class. */
  lemma EqualsReflexiveNotNull(d: Domain)
    ensures Equals(d, Instance(d))
    ensures !Equals(d, NullRef) && !Equals(d, OtherClass)
  {
  }

  /** Equal domains have equal hash codes. */
  lemma {:induction false} HashCodeConsistent(d: Domain, e: Domain, fieldHash: FieldValue -> int)
    requires Equals(d, Instance(e))
    ensures HashCode(d, fieldHash) == HashCode(e, fieldHash)
  {
    EqualsIffFieldwise(d, e);
  }
}
