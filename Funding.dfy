/** The per-user document of main.ts: the ordered list `fundingProviders`
    and the provider-type string `defaultProvider`, and the collection
    "users" that holds one such document per user id.

    A document that does not exist reads as an empty list with "" as the
    default (`userDoc.exists ? userDoc.data() : {}`, then `|| []` and
    `|| ""`). Because the code reads every field through those defaults,
    a field that was never written is stored here as its read default. */
module Funding {

  const LnbitsTag := "lnbits"
  const OpenNodeTag := "opennode"

  /** One funding-provider record, tagged by its `provider` field. */
  datatype Provider =
    | Lnbits(instanceUrl: string, invoiceKey: string, adminKey: string,
             providerInvoiceKey: string, providerAdminKey: string)
    | OpenNode(invoiceKey: string, readApiKey: string,
               providerInvoiceKey: string, providerAdminKey: string)
  {
    /** The record's `provider` field. */
    function Tag(): string
    {
      if Lnbits? then LnbitsTag else OpenNodeTag
    }
  }

  datatype UserDoc = UserDoc(fundingProviders: seq<Provider>, defaultProvider: string)

  /** How a missing document reads. */
  const EmptyDoc := UserDoc([], "")

  /** The document as `get()` with the read defaults sees it. */
  function Lookup(users: map<string, UserDoc>, uid: string): UserDoc
  {
    if uid in users then users[uid] else EmptyDoc
  }

  /** The add routes' effect: push the record onto the list, and make its
      type the default when it is the only record (`length === 1`). */
  function AddProvider(doc: UserDoc, rec: Provider): (d: UserDoc)
    ensures |d.fundingProviders| == |doc.fundingProviders| + 1
    ensures d.fundingProviders[..|doc.fundingProviders|] == doc.fundingProviders
    ensures d.fundingProviders[|doc.fundingProviders|] == rec
    ensures d.defaultProvider == if doc.fundingProviders == [] then rec.Tag() else doc.defaultProvider
  {
    var providers := doc.fundingProviders + [rec];
    assert providers[..|doc.fundingProviders|] == doc.fundingProviders;
    UserDoc(providers, if |providers| == 1 then rec.Tag() else doc.defaultProvider)
  }

  /** The range check of `set-default-provider`. */
  predicate InRange(doc: UserDoc, index: int)
  {
    0 <= index < |doc.fundingProviders|
  }

  /** `set-default-provider`'s effect: copy the tag of the chosen record. */
  function SetDefault(doc: UserDoc, index: int): (d: UserDoc)
    requires InRange(doc, index)
    ensures d.fundingProviders == doc.fundingProviders
    ensures d.defaultProvider == doc.fundingProviders[index].Tag()
    ensures HasTag(d.fundingProviders, d.defaultProvider)
  {
    doc.(defaultProvider := doc.fundingProviders[index].Tag())
  }

  /** Some record in `providers` carries `tag`. */
  predicate HasTag(providers: seq<Provider>, tag: string)
  {
    exists i :: 0 <= i < |providers| && providers[i].Tag() == tag
  }

  /** The invariant the funding routes keep when every store call
      succeeds: no records and no default, or a default that is the type
      of one of the records. */
  predicate Consistent(doc: UserDoc)
  {
    if doc.fundingProviders == [] then doc.defaultProvider == ""
    else HasTag(doc.fundingProviders, doc.defaultProvider)
  }

  predicate AllConsistent(users: map<string, UserDoc>)
  {
    forall uid :: uid in users ==> Consistent(users[uid])
  }

  /** Adding a record keeps a document consistent. */
  lemma AddProviderConsistent(doc: UserDoc, rec: Provider)
    requires Consistent(doc)
    ensures Consistent(AddProvider(doc, rec))
  {
    var d := AddProvider(doc, rec);
    var n := |doc.fundingProviders|;
    if n == 0 {
      assert d.fundingProviders[0].Tag() == d.defaultProvider;
    } else {
      var i :| 0 <= i < n && doc.fundingProviders[i].Tag() == doc.defaultProvider;
      assert d.fundingProviders[i] == d.fundingProviders[..n][i];
    }
  }

  /** Choosing a default keeps a document consistent. */
  lemma SetDefaultConsistent(doc: UserDoc, index: int)
    requires Consistent(doc) && InRange(doc, index)
    ensures Consistent(SetDefault(doc, index))
  {
    assert SetDefault(doc, index).fundingProviders[index].Tag() == SetDefault(doc, index).defaultProvider;
  }

  /** Choosing a default changes nothing but the default, which becomes a
      supported provider type, and choosing it twice is choosing it once. */
  lemma SetDefaultOnlyChangesDefault(doc: UserDoc, index: int)
    requires InRange(doc, index)
    ensures SetDefault(doc, index).fundingProviders == doc.fundingProviders
    ensures SetDefault(doc, index).defaultProvider in {LnbitsTag, OpenNodeTag}
    ensures SetDefault(SetDefault(doc, index), index) == SetDefault(doc, index)
  {
  }

  /** The list write and the default write of an add are separate: when
      the second fails for a first provider, the document keeps the record
      and has no default, which breaks the invariant. */
  lemma PartialAddInconsistent(doc: UserDoc, rec: Provider)
    requires Consistent(doc) && doc.fundingProviders == []
    ensures !Consistent(doc.(fundingProviders := [rec]))
    ensures Consistent(AddProvider(doc, rec))
  {
    AddProviderConsistent(doc, rec);
  }

  /** Replacing one user's document by a consistent one keeps the whole
      collection consistent. */
  lemma UpdateConsistent(users: map<string, UserDoc>, uid: string, doc: UserDoc)
    requires AllConsistent(users) && Consistent(doc)
    ensures Consistent(Lookup(users, uid))
    ensures AllConsistent(users[uid := doc])
  {
  }

  /** The document after adding `recs` in order, with every write
      succeeding. */
  function AddAll(doc: UserDoc, recs: seq<Provider>): UserDoc
    decreases |recs|
  {
    if recs == [] then doc else AddAll(AddProvider(doc, recs[0]), recs[1..])
  }

  /** First provider wins: starting from a missing document, any sequence
      of adds (with no explicit choice) stores the records in order and
      keeps the first one's type as the default. */
  lemma {:induction false} FirstProviderWins(recs: seq<Provider>)
    requires recs != []
    ensures AddAll(EmptyDoc, recs) == UserDoc(recs, recs[0].Tag())
  {
    AddAllAppends(AddProvider(EmptyDoc, recs[0]), recs[1..]);
    assert [recs[0]] + recs[1..] == recs;
  }

  /** Adds to a non-empty document append in order and never touch the
      default. */
  lemma {:induction false} AddAllAppends(doc: UserDoc, recs: seq<Provider>)
    requires doc.fundingProviders != []
    ensures AddAll(doc, recs) == UserDoc(doc.fundingProviders + recs, doc.defaultProvider)
    decreases |recs|
  {
    if recs == [] {
      assert doc.fundingProviders + recs == doc.fundingProviders;
    } else {
      var next := AddProvider(doc, recs[0]);
      AddAllAppends(next, recs[1..]);
      assert next.fundingProviders == doc.fundingProviders + [recs[0]];
      assert (doc.fundingProviders + [recs[0]]) + recs[1..] == doc.fundingProviders + recs;
    }
  }

  /** The collection "users" of the document store. `get` and
      `set(..., { merge: true })` on a user's document become a map read
      and a one-field update. */
  class UserStore {
    var users: map<string, UserDoc>

    constructor ()
      ensures users == map[]
    {
      users := map[];
    }

    function Read(uid: string): UserDoc
      reads this
    {
      Lookup(users, uid)
    }

    /** `db.collection("users").doc(uid).get()` with the read defaults. */
    method Get(uid: string) returns (doc: UserDoc)
      ensures uid in users ==> doc == users[uid]
      ensures uid !in users ==> doc == EmptyDoc
    {
      if uid in users {
        doc := users[uid];
      } else {
        doc := EmptyDoc;
      }
    }

    /** `set({ fundingProviders }, { merge: true })`: replaces the list and
      keeps the default; creates the document when it is missing. */
    method SetFundingProviders(uid: string, providers: seq<Provider>)
      modifies this
      ensures users == old(users)[uid := old(Read(uid)).(fundingProviders := providers)]
    {
      users := users[uid := Read(uid).(fundingProviders := providers)];
    }

    /** `set({ defaultProvider }, { merge: true })`: replaces the default
      and keeps the list. */
    method SetDefaultProvider(uid: string, tag: string)
      modifies this
      ensures users == old(users)[uid := old(Read(uid)).(defaultProvider := tag)]
    {
      users := users[uid := Read(uid).(defaultProvider := tag)];
    }
  }
}
