/**
  The DNS record value record: eight nullable properties, all of which take
  part in `equals` and `hashCode`.
 */
module DomainRecords {
  import opened JavaText

  /** `created`, `updated` and `mxPriority` are `Long`s. */
  datatype DomainRecord = DomainRecord(
    id: Option<string>,
    slug: Option<string>,
    recordType: Option<string>,
    name: Option<string>,
    value: Option<string>,
    created: Option<int>,
    updated: Option<int>,
    mxPriority: Option<int>)

  /** The properties, in declaration order. */
  datatype Field = Id | Slug | Type | Name | Value | Created | Updated | MxPriority

  const FIELDS: seq<Field> := [Id, Slug, Type, Name, Value, Created, Updated, MxPriority]

  datatype FieldValue = Text(text: Option<string>) | Number(number: Option<int>)

  predicate Fits(f: Field, v: FieldValue) {
    if f in {Created, Updated, MxPriority} then v.Number? else v.Text?
  }

  predicate IsNull(v: FieldValue) {
    match v
    case Text(x) => x.None?
    case Number(x) => x.None?
  }

  function Get(r: DomainRecord, f: Field): (v: FieldValue)
    ensures Fits(f, v)
  {
    match f
    case Id => Text(r.id)
    case Slug => Text(r.slug)
    case Type => Text(r.recordType)
    case Name => Text(r.name)
    case Value => Text(r.value)
    case Created => Number(r.created)
    case Updated => Number(r.updated)
    case MxPriority => Number(r.mxPriority)
  }

  function Set(r: DomainRecord, f: Field, v: FieldValue): DomainRecord
    requires Fits(f, v)
  {
    match f
    case Id => r.(id := v.text)
    case Slug => r.(slug := v.text)
    case Type => r.(recordType := v.text)
    case Name => r.(name := v.text)
    case Value => r.(value := v.text)
    case Created => r.(created := v.number)
    case Updated => r.(updated := v.number)
    case MxPriority => r.(mxPriority := v.number)
  }

  /** `equals(Object)`: the field-by-field null-safe comparison, in declaration order. */
  predicate Equals(r: DomainRecord, o: Obj<DomainRecord>) {
    match o
    case NullRef => false
    case OtherClass => false
    case Instance(e) =>
      && NullSafeEquals(r.id, e.id)
      && NullSafeEquals(r.slug, e.slug)
      && NullSafeEquals(r.recordType, e.recordType)
      && NullSafeEquals(r.name, e.name)
      && NullSafeEquals(r.value, e.value)
      && NullSafeEquals(r.created, e.created)
      && NullSafeEquals(r.updated, e.updated)
      && NullSafeEquals(r.mxPriority, e.mxPriority)
  }

  /** `hashCode()`: the 31-fold of the field hashes, a null field contributing 0. */
  function HashCode(r: DomainRecord, fieldHash: FieldValue -> int): (h: int)
    ensures IsInt32(h)
  {
    HashFold(seq(|FIELDS|, i requires 0 <= i < |FIELDS| =>
      var v := Get(r, FIELDS[i]); if IsNull(v) then 0 else fieldHash(v)))
  }

  /** Each setter followed by a getter returns the value set, and no other property changes. */
  lemma GetAfterSet(r: DomainRecord, f: Field, v: FieldValue, g: Field)
    requires Fits(f, v)
    ensures Get(Set(r, f, v), g) == if g == f then v else Get(r, g)
  {
  }

  /** Two records are equal exactly when every property is, which is exactly when they are the same value. */
  lemma {:induction false} EqualsIffFieldwise(r: DomainRecord, e: DomainRecord)
    ensures Equals(r, Instance(e)) <==> (forall f: Field :: Get(r, f) == Get(e, f))
    ensures Equals(r, Instance(e)) <==> r == e
  {
    if forall f: Field :: Get(r, f) == Get(e, f) {
      assert Get(r, Id) == Get(e, Id) && Get(r, Slug) == Get(e, Slug);
      assert Get(r, Type) == Get(e, Type) && Get(r, Name) == Get(e, Name);
      assert Get(r, Value) == Get(e, Value) && Get(r, Created) == Get(e, Created);
      assert Get(r, Updated) == Get(e, Updated) && Get(r, MxPriority) == Get(e, MxPriority);
    }
  }

  /** Two records that differ only in their MX priority are not equal. */
  lemma DifferentMxPriority(r: DomainRecord, p: Option<int>)
    requires p != r.mxPriority
    ensures !Equals(r, Instance(Set(r, MxPriority, Number(p))))
  {
  }

  /** A record is equal to itself and never to null or to an object of another class. */
  lemma EqualsReflexiveNotNull(r: DomainRecord)
    ensures Equals(r, Instance(r))
    ensures !Equals(r, NullRef) && !Equals(r, OtherClass)
  {
  }

  /** Equal records have equal hash codes. */
  lemma {:induction false} HashCodeConsistent(r: DomainRecord, e: DomainRecord, fieldHash: FieldValue -> int)
    requires Equals(r, Instance(e))
    ensures HashCode(r, fieldHash) == HashCode(e, fieldHash)
  {
    EqualsIffFieldwise(r, e);
  }
}
