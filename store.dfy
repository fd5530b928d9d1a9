/**
 * The in-memory laptop store: a map from ID to laptop, with insert-if-absent, lookup by
 * ID and a filtered scan that hands copies of the matches to a consumer.
 */
module LaptopStore {
  import opened Wrappers
  import opened Pb
  import opened Qualify
  import opened Copier
  import opened Scan

  /** Every record is filed under its own ID. */
  ghost predicate IdsMatchKeys(data: map<string, Laptop>)
  {
    forall id :: id in data ==> data[id].id == id
  }

  /** No key is listed twice. */
  ghost predicate NoDuplicates(keys: seq<string>)
  {
    forall i, j :: 0 <= i < j < |keys| ==> keys[i] != keys[j]
  }

  /** `order` lists every key of `keys` exactly once: one possible order of a `range` over the map. */
  ghost predicate IsEnumeration(order: seq<string>, keys: set<string>)
  {
    NoDuplicates(order) && forall k :: k in order <==> k in keys
  }

  /** No two records share an ID. */
  ghost predicate DistinctIds(records: seq<Laptop>)
  {
    forall i, j :: 0 <= i < j < |records| ==> records[i].id != records[j].id
  }

  /** The stored records, listed in the order of `order`. */
  function Records(data: map<string, Laptop>, order: seq<string>): (r: seq<Laptop>)
    requires forall k :: k in order ==> k in data
    ensures |r| == |order|
    ensures forall i :: 0 <= i < |order| ==> r[i] == data[order[i]]
  {
    seq(|order|, i requires 0 <= i < |order| => data[order[i]])
  }

  /** Listing two key sequences one after the other lists their records one after the other. */
  lemma RecordsConcat(data: map<string, Laptop>, a: seq<string>, b: seq<string>)
    requires forall k :: k in a ==> k in data
    requires forall k :: k in b ==> k in data
    ensures Records(data, a + b) == Records(data, a) + Records(data, b)
  {
    var r, l := Records(data, a + b), Records(data, a) + Records(data, b);
    assert |r| == |l|;
    forall i | 0 <= i < |r| ensures r[i] == l[i] {
      if i < |a| { assert (a + b)[i] == a[i]; } else { assert (a + b)[i] == b[i - |a|]; }
    }
  }

  /** Some enumeration of a finite set of keys. */
  ghost function Enumerate(keys: set<string>): (r: seq<string>)
    ensures IsEnumeration(r, keys)
    decreases keys
  {
    if keys == {} then []
    else
      var k :| k in keys;
      [k] + Enumerate(keys - {k})
  }

  /** A filter keeps records with distinct IDs distinct. */
  lemma {:induction false} QualifyingKeepsDistinctIds(filter: Filter, records: seq<Laptop>)
    requires DistinctIds(records)
    ensures DistinctIds(Qualifying(filter, records))
  {
    if records != [] {
      var init, last := records[..|records| - 1], records[|records| - 1];
      QualifyingKeepsDistinctIds(filter, init);
      var q := Qualifying(filter, init);
      forall x | x in q
        ensures x.id != last.id
      {
        var i :| 0 <= i < |init| && init[i] == x;
        assert records[i] == x;
      }
    }
  }

  /**
   * A scan over an enumeration of the store with a quiet environment returns no error and
   * calls the consumer exactly once for each stored laptop the filter selects, and for no other.
   */
  lemma QuietSearchDeliversEachMatchOnce(filter: Filter, env: Env, data: map<string, Laptop>, order: seq<string>)
    requires IdsMatchKeys(data)
    requires IsEnumeration(order, data.Keys)
    requires Quiet(env, |order|)
    ensures ErrorOf(Run(filter, env, Records(data, order))) == None
    ensures forall x :: x in Run(filter, env, Records(data, order)).delivered <==>
      x.id in data && data[x.id] == x && IsQualified(filter, x)
    ensures DistinctIds(Run(filter, env, Records(data, order)).delivered)
  {
    var records := Records(data, order);
    RunQuiet(filter, env, records);
    forall x ensures x in records <==> x.id in data && data[x.id] == x {
      if x.id in data && data[x.id] == x {
        var i :| 0 <= i < |order| && order[i] == x.id;
        assert records[i] == x;
      }
    }
    QualifyingKeepsDistinctIds(filter, records);
  }

  /** An enumeration lists as many keys as the set holds. */
  lemma {:induction false} EnumerationLength(order: seq<string>, keys: set<string>)
    requires IsEnumeration(order, keys)
    ensures |order| == |keys|
  {
    if order != [] {
      var init, last := order[..|order| - 1], order[|order| - 1];
      assert order == init + [last];
      assert IsEnumeration(init, keys - {last});
      EnumerationLength(init, keys - {last});
    }
  }

  /**
   * What a scan over an enumeration of the store promises without knowing the order: every
   * consumer call is on a stored laptop the filter selects; and if the keys are the IDs and
   * nothing cancels or fails, no error is returned and each match is delivered exactly once.
   */
  lemma SearchOutcome(filter: Filter, env: Env, data: map<string, Laptop>, order: seq<string>)
    requires IsEnumeration(order, data.Keys)
    ensures forall x :: x in Run(filter, env, Records(data, order)).delivered ==>
      x in data.Values && IsQualified(filter, x)
    ensures IdsMatchKeys(data) && Quiet(env, |data|) ==>
      && ErrorOf(Run(filter, env, Records(data, order))) == None
      && DistinctIds(Run(filter, env, Records(data, order)).delivered)
      && forall x :: x in Run(filter, env, Records(data, order)).delivered <==>
           x.id in data && data[x.id] == x && IsQualified(filter, x)
  {
    var records := Records(data, order);
    RunDeliversQualifyingPrefix(filter, env, records);
    forall x | x in Run(filter, env, records).delivered
      ensures x in data.Values
    {
      var q := Qualifying(filter, records);
      var j :| 0 <= j < |Run(filter, env, records).delivered| && Run(filter, env, records).delivered[j] == x;
      assert q[j] == x;
      assert x in q;
      assert x in records;
      var i :| 0 <= i < |records| && records[i] == x;
      assert data[order[i]] == x;
    }
    EnumerationLength(order, data.Keys);
    assert |data| == |data.Keys|;
    if IdsMatchKeys(data) && Quiet(env, |data|) {
      QuietSearchDeliversEachMatchOnce(filter, env, data, order);
    }
  }

  /**
   * Visiting one more key keeps the loop's bookkeeping and takes the scan one `Step` further.
   */
  lemma VisitKey(filter: Filter, env: Env, data: map<string, Laptop>, order: seq<string>,
                 remaining: set<string>, id: string)
    requires NoDuplicates(order)
    requires forall k :: k in order ==> k in data
    requires forall k :: k in remaining <==> k in data && k !in order
    requires id in remaining
    ensures NoDuplicates(order + [id])
    ensures forall k :: k in order + [id] ==> k in data
    ensures forall k :: k in remaining - {id} <==> k in data && k !in order + [id]
    ensures Run(filter, env, Records(data, order + [id])) == Step(filter, env, Run(filter, env, Records(data, order)), data[id])
  {
    RunAppend(filter, env, Records(data, order), data[id]);
    RecordsConcat(data, order, [id]);
  }

  /** The visited keys followed by some enumeration of the unvisited ones. */
  ghost function Complete(order: seq<string>, remaining: set<string>): seq<string>
  {
    order + Enumerate(remaining)
  }

  /**
   * When the scan stops early, completing the visited keys with the unvisited ones gives an
   * enumeration of the store over which the scan ends the same way, so everything `Search`
   * promises holds of the error and the calls at the point of stopping.
   */
  lemma StoppedSearchCompletes(filter: Filter, env: Env, data: map<string, Laptop>, order: seq<string>,
                               remaining: set<string>, err: Option<Error>, delivered: seq<Laptop>)
    requires NoDuplicates(order)
    requires forall k :: k in order ==> k in data
    requires forall k :: k in remaining <==> k in data && k !in order
    requires Run(filter, env, Records(data, order)) == Stopped(err, delivered)
    ensures IsEnumeration(Complete(order, remaining), data.Keys)
    ensures err == ErrorOf(Run(filter, env, Records(data, Complete(order, remaining))))
    ensures delivered == Run(filter, env, Records(data, Complete(order, remaining))).delivered
    ensures forall x :: x in delivered ==> x in data.Values && IsQualified(filter, x)
    ensures IdsMatchKeys(data) && Quiet(env, |data|) ==>
      && err == None
      && DistinctIds(delivered)
      && forall x :: x in delivered <==> x.id in data && data[x.id] == x && IsQualified(filter, x)
  {
    var rest := Enumerate(remaining);
    RecordsConcat(data, order, rest);
    StoppedStaysStopped(filter, env, Records(data, order), Records(data, rest));
    SearchOutcome(filter, env, data, order + rest);
  }

  /** `InMemoryLaptopStore`: the records, keyed by laptop ID. */
  class InMemoryLaptopStore {
    var data: map<string, Laptop>

    ghost predicate Valid()
      reads this
    {
      IdsMatchKeys(data)
    }

    /** `NewInMemoryLaptopStore`: an empty store. */
    constructor ()
      ensures Valid() && data == map[]
    {
      data := map[];
    }

    /**
     * Files a copy of `laptop` under its ID, unless that ID is taken or the copy fails;
     * `copyFault` is whether the copying library fails.
     */
    method Save(laptop: Laptop, copyFault: Option<string>) returns (err: Option<Error>)
      requires Valid()
      modifies this
      ensures Valid()
      ensures laptop.id in old(data) ==> err == Some(AlreadyExists) && data == old(data)
      ensures laptop.id !in old(data) && copyFault.Some? ==>
        err == Some(CopyFailure(copyFault.value)) && data == old(data)
      ensures laptop.id !in old(data) && copyFault.None? ==>
        err == None && data == old(data)[laptop.id := laptop]
    {
      if laptop.id in data {
        return Some(AlreadyExists);
      }
      var copied := DeepCopy(laptop, copyFault);
      if copied.Failure? {
        return Some(copied.error);
      }
      var other := copied.value;
      data := data[other.id := other];
      return None;
    }

    /**
     * Looks up `id`: a copy of the stored laptop, or no laptop and no error when the ID is
     * absent, or the copy error.
     */
    method Find(id: string, copyFault: Option<string>) returns (laptop: Option<Laptop>, err: Option<Error>)
      ensures id !in data ==> laptop == None && err == None
      ensures id in data && copyFault.None? ==> laptop == Some(data[id]) && err == None
      ensures id in data && copyFault.Some? ==> laptop == None && err == Some(CopyFailure(copyFault.value))
      ensures laptop.Some? ==> err == None
    {
      if id !in data {
        return None, None;
      }
      var copied := DeepCopy(data[id], copyFault);
      match copied
      case Success(other) => return Some(other), None;
      case Failure(e) => return None, Some(e);
    }

    /**
     * Visits the records in an unspecified order: stops with no error when the context is
     * cancelled, hands a copy of each match to the consumer, and stops with the copy's or the
     * consumer's error. `delivered` lists the consumer's calls; `order` is the enumeration of
     * the keys the visit followed, completed with the unvisited keys when it stopped early.
     */
    method Search(filter: Filter, env: Env) returns (err: Option<Error>, delivered: seq<Laptop>, ghost order: seq<string>)
      ensures IsEnumeration(order, data.Keys)
      ensures err == ErrorOf(Run(filter, env, Records(data, order)))
      ensures delivered == Run(filter, env, Records(data, order)).delivered
      ensures forall x :: x in delivered ==> x in data.Values && IsQualified(filter, x)
      ensures Valid() && Quiet(env, |data|) ==>
        && err == None
        && DistinctIds(delivered)
        && forall x :: x in delivered <==> x.id in data && data[x.id] == x && IsQualified(filter, x)
    {
      err, delivered, order := None, [], [];
      var remaining := data.Keys;
      var step := 0;
      while remaining != {}
        invariant forall k :: k in order ==> k in data
        invariant NoDuplicates(order)
        invariant forall k :: k in remaining <==> k in data && k !in order
        invariant Run(filter, env, Records(data, order)) == Scanning(step, delivered)
        decreases remaining
      {
        var id :| id in remaining;
        var laptop := data[id];
        VisitKey(filter, env, data, order, remaining, id);
        remaining := remaining - {id};
        order := order + [id];

        if env.cancelled(step) {
          StoppedSearchCompletes(filter, env, data, order, remaining, err, delivered);
          order := Complete(order, remaining);
          return;
        }

        if IsQualified(filter, laptop) {
          var copied := DeepCopy(laptop, env.copyFault(step));
          if copied.Failure? {
            err := Some(copied.error);
            StoppedSearchCompletes(filter, env, data, order, remaining, err, delivered);
            order := Complete(order, remaining);
            return;
          }
          var other := copied.value;
          var foundErr := env.found(|delivered|, other);
          delivered := delivered + [other];
          if foundErr.Some? {
            err := foundErr;
            StoppedSearchCompletes(filter, env, data, order, remaining, err, delivered);
            order := Complete(order, remaining);
            return;
          }
        }
        step := step + 1;
      }
      SearchOutcome(filter, env, data, order);
    }
  }
}
