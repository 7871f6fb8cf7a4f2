/**
  The Person collection as seen by `save`: validation of both paths,
  including the unique-validator's count of other documents with the same
  name, then the insert. Saves are sequential; the database's own unique
  index and its behaviour under concurrent inserts are not modelled.
*/
module PersonStore {
  import opened Wrappers
  import opened ObjectIds
  import opened PersonSchema

  /** Why a save failed. */
  datatype SaveError =
    /** Schema validation failed; the first failing check of each path, if any. */
    | ValidationFailed(name: Option<Violation>, number: Option<Violation>)
    /** The `_id` is already stored (the collection's primary key). */
    | DuplicateKey

  /**
    The unique-validator's query: the number of documents, other than the one
    being saved (`_id` != self), whose name equals `name` exactly.
  */
  function CountSameName(docs: seq<Document>, name: string, self: ObjectId): nat {
    if docs == [] then 0
    else
      var last := docs[|docs| - 1];
      CountSameName(docs[..|docs| - 1], name, self) + (if last.name == name && last.id != self then 1 else 0)
  }

  predicate NameTakenByOther(docs: seq<Document>, name: string, self: ObjectId) {
    exists i :: 0 <= i < |docs| && docs[i].name == name && docs[i].id != self
  }

  predicate IdTaken(docs: seq<Document>, id: ObjectId) {
    exists i :: 0 <= i < |docs| && docs[i].id == id
  }

  /** Every stored person satisfies the field rules; names and ids are pairwise distinct. */
  predicate StoreInvariant(docs: seq<Document>) {
    (forall i :: 0 <= i < |docs| ==> FieldsValid(docs[i]))
    && (forall i, j :: 0 <= i < j < |docs| ==> docs[i].name != docs[j].name)
    && (forall i, j :: 0 <= i < j < |docs| ==> docs[i].id != docs[j].id)
  }

  /** The first failing check of the `name` path, uniqueness last. */
  function NamePathViolation(docs: seq<Document>, name: Option<string>, self: ObjectId): (r: Option<Violation>)
    ensures r.None? <==> name.Some? && |name.value| >= 3 && !NameTakenByOther(docs, name.value, self)
    ensures r == Some(NotUnique) <==> name.Some? && |name.value| >= 3 && NameTakenByOther(docs, name.value, self)
  {
    var fieldCheck := NameViolation(name);
    if fieldCheck.Some? then fieldCheck
    else if NameTakenByOther(docs, name.value, self) then Some(NotUnique)
    else None
  }

  /** The unique-validator finds no clash exactly when its count is zero. */
  lemma {:induction false} CountSameNameZero(docs: seq<Document>, name: string, self: ObjectId)
    ensures CountSameName(docs, name, self) == 0 <==> !NameTakenByOther(docs, name, self)
  {
    if docs != [] {
      var init := docs[..|docs| - 1];
      CountSameNameZero(init, name, self);
      if NameTakenByOther(init, name, self) {
        var i :| 0 <= i < |init| && init[i].name == name && init[i].id != self;
        assert docs[i] == init[i];
      }
      if NameTakenByOther(docs, name, self) {
        var i :| 0 <= i < |docs| && docs[i].name == name && docs[i].id != self;
        if i < |init| {
          assert init[i] == docs[i];
        }
      }
    }
  }

  /** Appending a valid document whose name and id are new keeps the invariant. */
  lemma AppendKeepsInvariant(docs: seq<Document>, d: Document)
    requires StoreInvariant(docs)
    requires FieldsValid(d)
    requires !NameTakenByOther(docs, d.name, d.id) && !IdTaken(docs, d.id)
    ensures StoreInvariant(docs + [d])
  {
    var docs' := docs + [d];
    forall i | 0 <= i < |docs| ensures docs'[i].name != d.name {
      assert docs[i].id != d.id;
    }
  }

  /** A name already present makes the save fail (the `_id` clash if it is the same document). */
  lemma ExistingNameRejected(docs: seq<Document>, c: Candidate, id: ObjectId, i: nat)
    requires i < |docs| && c.name == Some(docs[i].name)
    ensures NamePathViolation(docs, c.name, id).Some? || IdTaken(docs, id)
  {
  }

  class ContactStore {
    var docs: seq<Document>

    ghost predicate Valid()
      reads this
    {
      StoreInvariant(docs)
    }

    constructor ()
      ensures Valid() && docs == []
    {
      docs := [];
    }

    /** `countDocuments({ name, _id: { $ne: self } })`, the plugin's query. */
    method CountOthersNamed(name: string, self: ObjectId) returns (n: nat)
      ensures n == CountSameName(docs, name, self)
    {
      n := 0;
      var i := 0;
      while i < |docs|
        invariant 0 <= i <= |docs|
        invariant n == CountSameName(docs[..i], name, self)
      {
        assert docs[..i + 1][..i] == docs[..i];
        if docs[i].name == name && docs[i].id != self {
          n := n + 1;
        }
        i := i + 1;
      }
      assert docs[..i] == docs;
    }

    /**
      `person.save()`: validate both paths, then insert with `__v` 0. On any
      failure nothing is stored.
    */
    method Save(c: Candidate, id: ObjectId) returns (r: Result<Document, SaveError>)
      requires Valid()
      modifies this
      ensures Valid()
      ensures var nameError := NamePathViolation(old(docs), c.name, id);
        var numberError := NumberViolation(c.number);
        if nameError.Some? || numberError.Some? then
          r == Err(ValidationFailed(nameError, numberError)) && docs == old(docs)
        else if IdTaken(old(docs), id) then
          r == Err(DuplicateKey) && docs == old(docs)
        else
          r == Ok(Document(id, c.name.value, c.number.value, 0)) && docs == old(docs) + [r.value]
      ensures r.Err? ==> docs == old(docs)
      ensures (exists i :: 0 <= i < |old(docs)| && Some(old(docs)[i].name) == c.name) ==> r.Err?
    {
      var nameError := NameViolation(c.name);
      if nameError.None? {
        var others := CountOthersNamed(c.name.value, id);
        CountSameNameZero(docs, c.name.value, id);
        if others != 0 {
          nameError := Some(NotUnique);
        }
      }
      var numberError := NumberViolation(c.number);
      if nameError.Some? || numberError.Some? {
        return Err(ValidationFailed(nameError, numberError));
      }
      if IdTaken(docs, id) {
        return Err(DuplicateKey);
      }
      var d := Document(id, c.name.value, c.number.value, 0);
      AppendKeepsInvariant(docs, d);
      docs := docs + [d];
      r := Ok(d);
    }
  }

  /**
    Clients of the store, for any well-formed number (such as "09-1234567",
    see PersonSchema.AreaCodeNumberAccepted): a first save succeeds, a short
    name is refused and the same name again is refused, each time leaving
    the store as it was.
  */
  method SaveScenarios(number: string)
    requires NumberViolation(Some(number)) == None
  {
    var store := new ContactStore();
    var r := store.Save(Candidate(Some("Ada Lovelace"), Some(number)), 1);
    assert r == Ok(Document(1, "Ada Lovelace", number, 0));
    assert store.docs == [r.value];

    var short := store.Save(Candidate(Some("A"), Some(number)), 2);
    assert short == Err(ValidationFailed(Some(TooShort(3)), None));
    assert store.docs == [r.value];

    assert store.docs[0].name == "Ada Lovelace";
    var twice := store.Save(Candidate(Some("Ada Lovelace"), Some(number)), 3);
    assert twice == Err(ValidationFailed(Some(NotUnique), None));
    assert store.docs == [r.value];
  }

  /**
    A missing number is refused; names are compared exactly, so a name
    differing only in letter case is a new name.
  */
  method CaseScenarios(number: string)
    requires NumberViolation(Some(number)) == None
  {
    var store := new ContactStore();
    var r := store.Save(Candidate(Some("Ada Lovelace"), Some(number)), 1);
    assert r.Ok?;

    var missing := store.Save(Candidate(Some("Grace Hopper"), None), 2);
    assert missing == Err(ValidationFailed(None, Some(Required)));

    assert store.docs[0].name != "ada lovelace";
    var lower := store.Save(Candidate(Some("ada lovelace"), Some(number)), 3);
    assert lower.Ok?;
    assert |store.docs| == 2;
  }
}
