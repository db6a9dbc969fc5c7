/** Laziness over an instance's whole life: a history of scalar accesses on
    one instance, and the provider calls it makes. */
module AccessHistory {
  import opened Wrappers
  import opened DataProtection
  import ConfigTree
  import opened ProtectedSection

  /** One scalar access on an instance: `Value` get/set or `this[key]` get/set. */
  datatype Access =
    | ReadValue
    | WriteValue(value: Option<string>)
    | ReadItem(key: ConfigTree.Key)
    | WriteItem(key: ConfigTree.Key, value: Option<string>)
  {
    /** The access hands a string (not null) to the protector to protect. */
    predicate WritesString()
    {
      (WriteValue? || WriteItem?) && value.Some?
    }
  }

  /** What an access returned: a read's value, or nothing for a write. */
  datatype Outcome = ReadOutcome(value: Result<Option<string>, CryptoError>) | WriteOutcome

  /** The state after a history: the store, the instance, and one outcome
      per access. */
  datatype Session = Session(store: ConfigTree.Store, self: Section, outcomes: seq<Outcome>)

  /** Performs one access. */
  function Step(tree: ConfigTree.Tree, store: ConfigTree.Store, w: Section, access: Access): (r: Session)
    requires w.Valid()
    ensures r.self.Valid() && r.self.inner == w.inner && r.self.provider == w.provider && |r.outcomes| == 1
    ensures r.self.providerCalls == 0 <==>
      && w.providerCalls == 0
      && !access.WritesString()
      && (r.outcomes[0].ReadOutcome? ==> r.outcomes[0].value == Success(None))
  {
    match access
    case ReadValue =>
      var read := GetValue(tree, store, w);
      Session(store, read.self, [ReadOutcome(read.value)])
    case WriteValue(value) =>
      var written := SetValue(tree, store, w, value);
      Session(written.store, written.self, [WriteOutcome])
    case ReadItem(key) =>
      var read := GetItem(tree, store, w, key);
      Session(store, read.self, [ReadOutcome(read.value)])
    case WriteItem(key, value) =>
      var written := SetItem(tree, store, w, key, value);
      Session(written.store, written.self, [WriteOutcome])
  }

  /** Performs a history of accesses in order on one instance. A failed read
      is recorded as its outcome and the history goes on. */
  function Run(tree: ConfigTree.Tree, store: ConfigTree.Store, w: Section, accesses: seq<Access>): (r: Session)
    requires w.Valid()
    ensures r.self.Valid() && r.self.inner == w.inner && r.self.provider == w.provider
    ensures |r.outcomes| == |accesses|
    decreases |accesses|
  {
    if |accesses| == 0 then Session(store, w, [])
    else
      var first := Step(tree, store, w, accesses[0]);
      var rest := Run(tree, first.store, first.self, accesses[1..]);
      Session(rest.store, rest.self, first.outcomes + rest.outcomes)
  }

  /** Every read in a history returned null. */
  predicate AllReadsNull(outcomes: seq<Outcome>)
  {
    forall i :: 0 <= i < |outcomes| && outcomes[i].ReadOutcome? ==> outcomes[i].value == Success(None)
  }

  /** No access in a history wrote a string. */
  predicate NoStringWrites(accesses: seq<Access>)
  {
    forall i :: 0 <= i < |accesses| ==> !accesses[i].WritesString()
  }

  /** Over any history, an instance calls the provider at most once, never
      loses the protector once created, and calls it exactly when some
      access had a string to protect or a stored value to unprotect: a
      history of null reads and null writes leaves it uncreated. */
  lemma {:induction false} RunIsLazy(tree: ConfigTree.Tree, store: ConfigTree.Store, w: Section, accesses: seq<Access>)
    requires w.Valid()
    ensures var r := Run(tree, store, w, accesses);
            && r.self.providerCalls <= 1
            && (w.providerCalls == 1 ==> r.self.providerCalls == 1)
            && (r.self.providerCalls == 0 <==>
                  w.providerCalls == 0 && NoStringWrites(accesses) && AllReadsNull(r.outcomes))
    decreases |accesses|
  {
    var r := Run(tree, store, w, accesses);
    if |accesses| > 0 {
      var first := Step(tree, store, w, accesses[0]);
      var rest := Run(tree, first.store, first.self, accesses[1..]);
      RunIsLazy(tree, first.store, first.self, accesses[1..]);
      assert r.outcomes == first.outcomes + rest.outcomes;
      assert accesses == [accesses[0]] + accesses[1..];
      assert NoStringWrites(accesses) <==> !accesses[0].WritesString() && NoStringWrites(accesses[1..]) by {
        if !accesses[0].WritesString() && NoStringWrites(accesses[1..]) {
          forall i | 0 <= i < |accesses| ensures !accesses[i].WritesString() {
            if i > 0 { assert accesses[i] == accesses[1..][i - 1]; }
          }
        }
      }
      assert AllReadsNull(r.outcomes) <==>
               (first.outcomes[0].ReadOutcome? ==> first.outcomes[0].value == Success(None)) &&
               AllReadsNull(rest.outcomes) by {
        if (first.outcomes[0].ReadOutcome? ==> first.outcomes[0].value == Success(None)) && AllReadsNull(rest.outcomes) {
          forall i | 0 <= i < |r.outcomes| && r.outcomes[i].ReadOutcome?
            ensures r.outcomes[i].value == Success(None)
          {
            if i > 0 { assert r.outcomes[i] == rest.outcomes[i - 1]; }
          }
        }
        if AllReadsNull(r.outcomes) {
          assert r.outcomes[0] == first.outcomes[0];
          forall i | 0 <= i < |rest.outcomes| && rest.outcomes[i].ReadOutcome?
            ensures rest.outcomes[i].value == Success(None)
          {
            assert rest.outcomes[i] == r.outcomes[i + 1];
          }
        }
      }
    }
  }

  /** Once the protector exists, later accesses reuse it: the slot keeps
      the same protector and the provider is not called again. */
  lemma {:induction false} ProtectorReused(tree: ConfigTree.Tree, store: ConfigTree.Store, w: Section, accesses: seq<Access>)
    requires w.Valid() && w.providerCalls == 1
    ensures var r := Run(tree, store, w, accesses);
            r.self.providerCalls == 1 && r.self.slot == w.slot
    decreases |accesses|
  {
    if |accesses| > 0 {
      var first := Step(tree, store, w, accesses[0]);
      ProtectorReused(tree, first.store, first.self, accesses[1..]);
    }
  }
}
