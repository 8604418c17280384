/** The saved-world document: serialize produces it from the registry and
    the tunables, deserialize rebuilds the registry from it. The text form
    (JSON) is not modelled; a document here is the already parsed value. */
module Codec {
  import opened Options
  import opened WorldObjects
  import Registry

  /** One element of the `objects` array. Only homebases carry a number;
      a loaded document may also lack it for a homebase. */
  datatype Record = Record(shape: Shape, number: Option<int>)

  /** The `config` object. Every key is optional; `homeBaseCounter` is read
      but never applied. */
  datatype DocConfig = DocConfig(
    homeBaseCounter: Option<int>,
    robotSize: Option<real>,
    robotSpeed: Option<real>,
    repulsiveForce: Option<real>,
    attractiveForce: Option<real>,
    noiseGain: Option<real>,
    sensorRange: Option<real>,
    boundaryForce: Option<real>,
    numSensorPoints: Option<nat>,
    sensorPointSpacing: Option<real>,
    enableBoundary: Option<bool>,
    wallThickness: Option<real>,
    minWallLength: Option<real>)

  /** A parsed document: `objects` is None when it is missing or not an
      array, `config` is None when it is missing. */
  datatype Document = Document(objects: Option<seq<Record>>, config: Option<DocConfig>)

  /** The outcome of parsing the text: not JSON at all, or a document. */
  datatype Input = Malformed | Parsed(doc: Document)

  // ----------------------------------------------------------------- config

  /** A key of the document assigned onto the value `before`: present, it
      overwrites the value; absent, the value stays. */
  ghost predicate Assigned<T>(key: Option<T>, before: T, after: T) {
    (key.Some? ==> after == key.value) && (key.None? ==> after == before)
  }

  /** `Object.assign(config, otherConfig)`: every key present in the
      document overwrites the tunable, every absent key keeps it. */
  function ApplyConfig(cfg: Config, d: DocConfig): (r: Config)
    ensures Assigned(d.robotSize, cfg.robotSize, r.robotSize)
    ensures Assigned(d.robotSpeed, cfg.robotSpeed, r.robotSpeed)
    ensures Assigned(d.repulsiveForce, cfg.repulsiveForce, r.repulsiveForce)
    ensures Assigned(d.attractiveForce, cfg.attractiveForce, r.attractiveForce)
    ensures Assigned(d.noiseGain, cfg.noiseGain, r.noiseGain)
    ensures Assigned(d.sensorRange, cfg.sensorRange, r.sensorRange)
    ensures Assigned(d.boundaryForce, cfg.boundaryForce, r.boundaryForce)
    ensures Assigned(d.numSensorPoints, cfg.numSensorPoints, r.numSensorPoints)
    ensures Assigned(d.sensorPointSpacing, cfg.sensorPointSpacing, r.sensorPointSpacing)
    ensures Assigned(d.enableBoundary, cfg.enableBoundary, r.enableBoundary)
    ensures Assigned(d.wallThickness, cfg.wallThickness, r.wallThickness)
    ensures Assigned(d.minWallLength, cfg.minWallLength, r.minWallLength)
  {
    Config(
      d.robotSize.GetOr(cfg.robotSize),
      d.robotSpeed.GetOr(cfg.robotSpeed),
      d.repulsiveForce.GetOr(cfg.repulsiveForce),
      d.attractiveForce.GetOr(cfg.attractiveForce),
      d.noiseGain.GetOr(cfg.noiseGain),
      d.sensorRange.GetOr(cfg.sensorRange),
      d.boundaryForce.GetOr(cfg.boundaryForce),
      d.numSensorPoints.GetOr(cfg.numSensorPoints),
      d.sensorPointSpacing.GetOr(cfg.sensorPointSpacing),
      d.enableBoundary.GetOr(cfg.enableBoundary),
      d.wallThickness.GetOr(cfg.wallThickness),
      d.minWallLength.GetOr(cfg.minWallLength))
  }

  /** The `homeBaseCounter` key of a document has no effect on the tunables. */
  lemma ApplyConfigIgnoresCounter(cfg: Config, d: DocConfig, n: Option<int>)
    ensures ApplyConfig(cfg, d.(homeBaseCounter := n)) == ApplyConfig(cfg, d)
  {
  }

  /** The `config` part serialize writes: the counter and seven of the
      tunables. Loading it back into the same tunables changes nothing, and
      the keys it leaves out keep whatever value the loader has. */
  function SerializeConfig(cfg: Config, counter: int): (d: DocConfig)
    ensures d.homeBaseCounter == Some(counter)
    ensures ApplyConfig(cfg, d) == cfg
    ensures forall other: Config :: ApplyConfig(other, d).robotSize == other.robotSize
              && ApplyConfig(other, d).numSensorPoints == other.numSensorPoints
              && ApplyConfig(other, d).wallThickness == other.wallThickness
  {
    DocConfig(Some(counter), None, Some(cfg.robotSpeed), Some(cfg.repulsiveForce), Some(cfg.attractiveForce),
              Some(cfg.noiseGain), Some(cfg.sensorRange), Some(cfg.boundaryForce), None, None,
              Some(cfg.enableBoundary), None, None)
  }

  // ---------------------------------------------------------------- records

  /** One object as serialize writes it: its geometry, and its number when
      it is a homebase. */
  function SerializeRecord(it: Item): (r: Record)
    ensures r.shape == it.shape
    ensures r.number.Some? <==> it.shape.Homebase?
    ensures r.number.Some? ==> r.number.value == it.number
  {
    Record(it.shape, if it.shape.Homebase? then Some(it.number) else None)
  }

  /** The `objects` array serialize writes, one record per object in order. */
  function SerializeItems(s: seq<Item>): (r: seq<Record>)
    ensures |r| == |s|
    ensures forall i :: 0 <= i < |s| ==> r[i] == SerializeRecord(s[i])
  {
    seq(|s|, i requires 0 <= i < |s| => SerializeRecord(s[i]))
  }

  /** The elements of s that satisfy p, in their order. */
  function Filter<T>(s: seq<T>, p: T -> bool): (r: seq<T>)
    ensures |r| <= |s|
  {
    if s == [] then [] else (if p(s[0]) then [s[0]] else []) + Filter(s[1..], p)
  }

  lemma {:induction false} FilterAppend<T>(a: seq<T>, b: seq<T>, p: T -> bool)
    ensures Filter(a + b, p) == Filter(a, p) + Filter(b, p)
  {
    if a == [] {
      assert a + b == b;
    } else {
      var h := if p(a[0]) then [a[0]] else [];
      assert (a + b)[1..] == a[1..] + b;
      FilterAppend(a[1..], b, p);
      assert Filter(a + b, p) == h + Filter(a[1..] + b, p);
      assert h + (Filter(a[1..], p) + Filter(b, p)) == (h + Filter(a[1..], p)) + Filter(b, p);
    }
  }

  /** Everything kept satisfies p. */
  lemma {:induction false} FilterSatisfies<T>(s: seq<T>, p: T -> bool)
    ensures forall i :: 0 <= i < |Filter(s, p)| ==> p(Filter(s, p)[i])
  {
    if s != [] {
      FilterSatisfies(s[1..], p);
    }
  }

  /** Nothing is dropped when every element satisfies p. */
  lemma {:induction false} FilterAll<T>(s: seq<T>, p: T -> bool)
    requires forall i :: 0 <= i < |s| ==> p(s[i])
    ensures Filter(s, p) == s
  {
    if s != [] {
      FilterAll(s[1..], p);
    }
  }

  predicate HomeRecord(x: Record) { x.shape.Homebase? }
  predicate OtherRecord(x: Record) { !x.shape.Homebase? }
  predicate OtherItem(x: Item) { !x.shape.Homebase? }

  /** The homebase records and the other records split the document. */
  lemma {:induction false} SplitRecords(rs: seq<Record>)
    ensures multiset(Filter(rs, HomeRecord)) + multiset(Filter(rs, OtherRecord)) == multiset(rs)
  {
    if rs != [] {
      SplitRecords(rs[1..]);
      var h := if HomeRecord(rs[0]) then [rs[0]] else [];
      var o := if OtherRecord(rs[0]) then [rs[0]] else [];
      assert multiset(h) + multiset(o) == multiset{rs[0]};
      assert multiset(Filter(rs, HomeRecord)) == multiset(h) + multiset(Filter(rs[1..], HomeRecord));
      assert multiset(Filter(rs, OtherRecord)) == multiset(o) + multiset(Filter(rs[1..], OtherRecord));
      assert rs == [rs[0]] + rs[1..];
      assert multiset(rs) == multiset{rs[0]} + multiset(rs[1..]);
    }
  }

  lemma SerializeAppend(a: seq<Item>, b: seq<Item>)
    ensures SerializeItems(a + b) == SerializeItems(a) + SerializeItems(b)
  {
  }

  /** Serializing commutes with picking out one kind of object. */
  lemma {:induction false} SerializeFilter(s: seq<Item>)
    ensures Filter(SerializeItems(s), HomeRecord) == SerializeItems(Filter(s, Registry.IsHomebase))
    ensures Filter(SerializeItems(s), OtherRecord) == SerializeItems(Filter(s, OtherItem))
  {
    if s != [] {
      var rs := SerializeItems(s);
      SerializeFilter(s[1..]);
      assert rs[1..] == SerializeItems(s[1..]);
      assert Filter(rs, HomeRecord) == SerializeItems(Filter(s, Registry.IsHomebase)) by {
        var h := if Registry.IsHomebase(s[0]) then [s[0]] else [];
        SerializeAppend(h, Filter(s[1..], Registry.IsHomebase));
      }
      assert Filter(rs, OtherRecord) == SerializeItems(Filter(s, OtherItem)) by {
        var o := if OtherItem(s[0]) then [s[0]] else [];
        SerializeAppend(o, Filter(s[1..], OtherItem));
      }
    }
  }

  // ---------------------------------------------------------------- sorting

  /** `(a.number || 0)`: the sort key of a record, 0 when it has no number. */
  function Key(x: Record): int { x.number.GetOr(0) }

  ghost predicate SortedByKey(s: seq<Record>) {
    forall i, j :: 0 <= i < j < |s| ==> Key(s[i]) <= Key(s[j])
  }

  function WithKey(s: seq<Record>, k: int): seq<Record> {
    if s == [] then [] else (if Key(s[0]) == k then [s[0]] else []) + WithKey(s[1..], k)
  }

  /** Puts x in front of the first element whose key is not smaller. */
  function Insert(x: Record, s: seq<Record>): (r: seq<Record>)
    ensures |r| == |s| + 1
  {
    if s == [] || Key(x) <= Key(s[0]) then [x] + s
    else [s[0]] + Insert(x, s[1..])
  }

  /** Insertion adds x and loses nothing. */
  lemma {:induction false} InsertPermutes(x: Record, s: seq<Record>)
    ensures multiset(Insert(x, s)) == multiset(s) + multiset{x}
  {
    if s != [] && Key(x) > Key(s[0]) {
      InsertPermutes(x, s[1..]);
      assert s == [s[0]] + s[1..];
    }
  }

  /** Inserting into a sorted list keeps it sorted. */
  lemma {:induction false} InsertSorted(x: Record, s: seq<Record>)
    requires SortedByKey(s)
    ensures SortedByKey(Insert(x, s))
  {
    if s != [] && Key(x) > Key(s[0]) {
      var rest := Insert(x, s[1..]);
      InsertSorted(x, s[1..]);
      InsertPermutes(x, s[1..]);
      forall i | 0 <= i < |rest| ensures Key(s[0]) <= Key(rest[i]) {
        assert rest[i] in multiset(rest);
        if rest[i] != x {
          assert rest[i] in multiset(s[1..]);
          var j :| 0 <= j < |s[1..]| && s[1..][j] == rest[i];
          assert s[j + 1] == rest[i];
        }
      }
    }
  }

  /** Insertion is stable: among the records of one key, x comes first,
      followed by those of s in their order. */
  lemma {:induction false} InsertStable(x: Record, s: seq<Record>, k: int)
    ensures WithKey(Insert(x, s), k) == (if Key(x) == k then [x] else []) + WithKey(s, k)
  {
    var hx := if Key(x) == k then [x] else [];
    if s == [] || Key(x) <= Key(s[0]) {
      var r := [x] + s;
      assert r[0] == x && r[1..] == s;
      assert WithKey(r, k) == hx + WithKey(s, k);
    } else {
      var rest := Insert(x, s[1..]);
      var r := [s[0]] + rest;
      assert r[0] == s[0] && r[1..] == rest;
      InsertStable(x, s[1..], k);
      var h := if Key(s[0]) == k then [s[0]] else [];
      assert WithKey(s, k) == h + WithKey(s[1..], k);
      assert h == [] || hx == [];
      assert WithKey(r, k) == h + (hx + WithKey(s[1..], k));
    }
  }

  /** The sort of the homebase records by number: insertion from the
      back, each record placed in front of its equals. */
  function SortByNumber(s: seq<Record>): (r: seq<Record>)
    ensures |r| == |s|
  {
    if s == [] then [] else Insert(s[0], SortByNumber(s[1..]))
  }

  /** The sort returns a rearrangement of its input. */
  lemma {:induction false} SortPermutes(s: seq<Record>)
    ensures multiset(SortByNumber(s)) == multiset(s)
  {
    if s != [] {
      SortPermutes(s[1..]);
      InsertPermutes(s[0], SortByNumber(s[1..]));
      assert s == [s[0]] + s[1..];
    }
  }

  /** The result of the sort is in ascending order of number. */
  lemma {:induction false} SortSorts(s: seq<Record>)
    ensures SortedByKey(SortByNumber(s))
  {
    if s != [] {
      SortSorts(s[1..]);
      InsertSorted(s[0], SortByNumber(s[1..]));
    }
  }

  /** The sort is stable: the records that share a number keep their
      document order. */
  lemma {:induction false} SortStable(s: seq<Record>, k: int)
    ensures WithKey(SortByNumber(s), k) == WithKey(s, k)
  {
    if s != [] {
      SortStable(s[1..], k);
      InsertStable(s[0], SortByNumber(s[1..]), k);
    }
  }

  /** An already sorted list is left as it is. */
  lemma {:induction false} SortSorted(s: seq<Record>)
    requires SortedByKey(s)
    ensures SortByNumber(s) == s
  {
    if s != [] {
      SortSorted(s[1..]);
      assert s == [s[0]] + s[1..];
    }
  }

  // ---------------------------------------------------------------- loading

  /** The records added one after the other with World.addObject, in list
      order, starting from registry r. A record keeps only its geometry:
      addObject gives a homebase the next counter value and any other
      object no number. */
  function AddRecords(r: Registry.Listing, recs: seq<Record>): Registry.Listing
    decreases |recs|
  {
    if recs == [] then r else AddRecords(Registry.Add(r, recs[0].shape, 0), recs[1..])
  }

  /** The list grows by one item per record, and the counter by the number
      of homebase records. */
  lemma {:induction false} AddRecordsSize(r: Registry.Listing, recs: seq<Record>)
    ensures |AddRecords(r, recs).items| == |r.items| + |recs|
    ensures AddRecords(r, recs).counter == r.counter + |Filter(recs, HomeRecord)|
    decreases |recs|
  {
    if recs != [] {
      AddRecordsSize(Registry.Add(r, recs[0].shape, 0), recs[1..]);
    }
  }

  /** The items already in the registry stay where they are. */
  lemma {:induction false} AddRecordsKeeps(r: Registry.Listing, recs: seq<Record>, i: nat)
    requires i < |r.items|
    ensures i < |AddRecords(r, recs).items| && AddRecords(r, recs).items[i] == r.items[i]
    decreases |recs|
  {
    AddRecordsSize(r, recs);
    if recs != [] {
      var r1 := Registry.Add(r, recs[0].shape, 0);
      AddRecordsKeeps(r1, recs[1..], i);
      assert r1.items[i] == r1.items[..|r.items|][i];
    }
  }

  /** The item the j-th added record becomes: its shape, with no number
      (0) unless it is a homebase, which is stamped with the counter value
      after the homebases before it. */
  lemma {:induction false} AddRecordsItem(r: Registry.Listing, recs: seq<Record>, j: nat)
    requires j < |recs|
    ensures |r.items| + j < |AddRecords(r, recs).items|
    ensures AddRecords(r, recs).items[|r.items| + j]
            == Item(recs[j].shape, if recs[j].shape.Homebase? then r.counter + |Filter(recs[..j], HomeRecord)| + 1 else 0)
    decreases |recs|
  {
    AddRecordsSize(r, recs);
    var r1 := Registry.Add(r, recs[0].shape, 0);
    if j == 0 {
      AddRecordsKeeps(r1, recs[1..], |r.items|);
      assert recs[..0] == [];
    } else {
      AddRecordsItem(r1, recs[1..], j - 1);
      assert recs[..j] == [recs[0]] + recs[1..][..j - 1];
    }
  }

  /** Adding records keeps a correctly numbered registry correctly numbered. */
  lemma {:induction false} AddRecordsNumbered(r: Registry.Listing, recs: seq<Record>)
    requires Registry.Numbered(r)
    ensures Registry.Numbered(AddRecords(r, recs))
    decreases |recs|
  {
    if recs != [] {
      Registry.AddNumbered(r, recs[0].shape, 0);
      AddRecordsNumbered(Registry.Add(r, recs[0].shape, 0), recs[1..]);
    }
  }

  /** The document's records split into the homebases and the rest. */
  lemma {:induction false} SplitLength(rs: seq<Record>)
    ensures |Filter(rs, OtherRecord)| + |Filter(rs, HomeRecord)| == |rs|
  {
    if rs != [] {
      SplitLength(rs[1..]);
    }
  }

  /** The registry deserialize builds from the records of a document: the
      objects that are not homebases are added first, then the homebases
      sorted by number. It holds every record once, and its counter equals
      the number of homebase records; the serialized counter plays no part. */
  function Load(rs: seq<Record>): (r: Registry.Listing)
    ensures |r.items| == |rs|
    ensures r.counter == |Filter(rs, HomeRecord)|
  {
    SplitLength(rs);
    NoHomeAmongOthers(rs);
    var others := Filter(rs, OtherRecord);
    var homes := SortByNumber(Filter(rs, HomeRecord));
    FilterSatisfies(rs, HomeRecord);
    HomesSorted(Filter(rs, HomeRecord));
    FilterAll(homes, HomeRecord);
    var base := AddRecords(Registry.Listing([], 0), others);
    AddRecordsSize(Registry.Listing([], 0), others);
    AddRecordsSize(base, homes);
    AddRecords(base, homes)
  }

  lemma NoHomeAmongOthers(rs: seq<Record>)
    ensures Filter(Filter(rs, OtherRecord), HomeRecord) == []
  {
    var others := Filter(rs, OtherRecord);
    FilterSatisfies(rs, OtherRecord);
    NoneKept(others, HomeRecord);
  }

  lemma {:induction false} NoneKept<T>(s: seq<T>, p: T -> bool)
    requires forall i :: 0 <= i < |s| ==> !p(s[i])
    ensures Filter(s, p) == []
  {
    if s != [] {
      NoneKept(s[1..], p);
    }
  }

  /** The order deserialize leaves, first part: the objects that are not
      homebases come first, in document order and without numbers; the
      j-th of them is item j. */
  lemma LoadOtherAt(rs: seq<Record>, j: nat)
    requires j < |Filter(rs, OtherRecord)|
    ensures j < |Load(rs).items| && Load(rs).items[j] == Item(Filter(rs, OtherRecord)[j].shape, 0)
  {
    var others := Filter(rs, OtherRecord);
    var empty := Registry.Listing([], 0);
    FilterSatisfies(rs, OtherRecord);
    AddRecordsSize(empty, others);
    AddRecordsItem(empty, others, j);
    AddRecordsKeeps(AddRecords(empty, others), SortByNumber(Filter(rs, HomeRecord)), j);
  }

  /** Homebase records added to a registry whose counter is 0 come out
      numbered 1, 2, … in the order they are added. */
  lemma AddHomeAt(base: Registry.Listing, homes: seq<Record>, j: nat, at: nat)
    requires base.counter == 0
    requires forall i :: 0 <= i < |homes| ==> HomeRecord(homes[i])
    requires j < |homes| && at == |base.items| + j
    ensures at < |AddRecords(base, homes).items|
    ensures AddRecords(base, homes).items[at] == Item(homes[j].shape, j + 1)
  {
    AddRecordsItem(base, homes, j);
    var before := homes[..j];
    assert forall i :: 0 <= i < |before| ==> HomeRecord(before[i]);
    FilterAll(before, HomeRecord);
  }

  /** The order deserialize leaves, second part: after them come the
      homebases in ascending order of their serialized number; the j-th of
      them is numbered j + 1. */
  lemma LoadHomeAt(rs: seq<Record>, j: nat)
    requires j < |Filter(rs, HomeRecord)|
    ensures |Filter(rs, OtherRecord)| + j < |Load(rs).items|
    ensures Load(rs).items[|Filter(rs, OtherRecord)| + j] == Item(SortByNumber(Filter(rs, HomeRecord))[j].shape, j + 1)
  {
    var others := Filter(rs, OtherRecord);
    var homes := SortByNumber(Filter(rs, HomeRecord));
    var base := AddRecords(Registry.Listing([], 0), others);
    assert base.counter == 0 && |base.items| == |others| by {
      NoHomeAmongOthers(rs);
      AddRecordsSize(Registry.Listing([], 0), others);
    }
    assert forall i :: 0 <= i < |homes| ==> HomeRecord(homes[i]) by {
      FilterSatisfies(rs, HomeRecord);
      HomesSorted(Filter(rs, HomeRecord));
    }
    AddHomeAt(base, homes, j, |others| + j);
  }

  /** Sorting homebase records yields homebase records. */
  lemma HomesSorted(s: seq<Record>)
    requires forall i :: 0 <= i < |s| ==> HomeRecord(s[i])
    ensures forall i :: 0 <= i < |SortByNumber(s)| ==> HomeRecord(SortByNumber(s)[i])
  {
    var r := SortByNumber(s);
    SortPermutes(s);
    forall i | 0 <= i < |r| ensures HomeRecord(r[i]) {
      assert r[i] in multiset(r);
      assert r[i] in multiset(s);
      var k :| 0 <= k < |s| && s[k] == r[i];
    }
  }

  /** A loaded registry is correctly numbered: every homebase carries its
      position among the homebases and the counter counts them. */
  lemma LoadNumbered(rs: seq<Record>)
    ensures Registry.Numbered(Load(rs))
  {
    var others := Filter(rs, OtherRecord);
    var homes := SortByNumber(Filter(rs, HomeRecord));
    AddRecordsNumbered(Registry.Listing([], 0), others);
    AddRecordsNumbered(AddRecords(Registry.Listing([], 0), others), homes);
  }

  // ------------------------------------------------------------ round trip

  /** Everything kept comes from the list. */
  lemma {:induction false} FilterSubset<T>(s: seq<T>, p: T -> bool)
    ensures forall i :: 0 <= i < |Filter(s, p)| ==> Filter(s, p)[i] in s
  {
    if s != [] {
      FilterSubset(s[1..], p);
    }
  }

  /** In a list numbered in order, the homebases, taken in order, carry the
      numbers 1, 2, …, and there are exactly as many as the count says. */
  lemma {:induction false} HomesNumbered(s: seq<Item>)
    requires Registry.NumberedInOrder(s)
    ensures |Filter(s, Registry.IsHomebase)| == Registry.HomebaseCount(s)
    ensures forall j :: 0 <= j < |Filter(s, Registry.IsHomebase)| ==> Filter(s, Registry.IsHomebase)[j].number == j + 1
  {
    if s != [] {
      var n := |s| - 1;
      var p := s[..n];
      assert Registry.NumberedInOrder(p) by {
        forall i | 0 <= i < |p| && Registry.IsHomebase(p[i])
          ensures p[i].number == Registry.HomebaseCount(p[..i]) + 1
        {
          assert p[..i] == s[..i];
        }
      }
      HomesNumbered(p);
      var last := if Registry.IsHomebase(s[n]) then [s[n]] else [];
      assert Filter(s, Registry.IsHomebase) == Filter(p, Registry.IsHomebase) + last by {
        assert s == p + [s[n]];
        FilterAppend(p, [s[n]], Registry.IsHomebase);
        assert [s[n]][1..] == [];
      }
      assert Registry.HomebaseCount(s) == Registry.HomebaseCount(p) + |last|;
    }
  }

  /** The round trip, for the j-th object that is not a homebase. */
  lemma RoundTripOtherAt(s: seq<Item>, j: nat)
    requires forall it :: it in s && !it.shape.Homebase? ==> it.number == 0
    requires j < |Filter(s, OtherItem)|
    ensures j < |Load(SerializeItems(s)).items|
    ensures Load(SerializeItems(s)).items[j] == Filter(s, OtherItem)[j]
  {
    var rs := SerializeItems(s);
    var others := Filter(s, OtherItem);
    SerializeFilter(s);
    FilterSatisfies(s, OtherItem);
    FilterSubset(s, OtherItem);
    LoadOtherAt(rs, j);
    assert others[j] in s;
    assert Filter(rs, OtherRecord)[j] == SerializeRecord(others[j]);
  }

  /** When the homebase records are those of a list of homebases numbered
      1, 2, … in order, loading brings back exactly that list. */
  lemma LoadNumberedHomes(rs: seq<Record>, homes: seq<Item>, k: nat)
    requires Filter(rs, HomeRecord) == SerializeItems(homes)
    requires forall i :: 0 <= i < |homes| ==> homes[i].shape.Homebase? && homes[i].number == i + 1
    requires k < |homes|
    ensures |Filter(rs, OtherRecord)| + k < |Load(rs).items|
    ensures Load(rs).items[|Filter(rs, OtherRecord)| + k] == homes[k]
  {
    var homeRecords := Filter(rs, HomeRecord);
    assert forall j :: 0 <= j < |homeRecords| ==> Key(homeRecords[j]) == j + 1;
    SortSorted(homeRecords);
    LoadHomeAt(rs, k);
    assert homeRecords[k] == SerializeRecord(homes[k]);
  }

  /** The round trip, for the k-th homebase of a list whose homebases carry
      the numbers 1, 2, … in order: it comes back after the other objects,
      with its number. */
  lemma RoundTripHomeAt(s: seq<Item>, k: nat)
    requires forall i :: 0 <= i < |Filter(s, Registry.IsHomebase)| ==> Filter(s, Registry.IsHomebase)[i].number == i + 1
    requires k < |Filter(s, Registry.IsHomebase)|
    ensures |Filter(SerializeItems(s), OtherRecord)| + k < |Load(SerializeItems(s)).items|
    ensures Load(SerializeItems(s)).items[|Filter(SerializeItems(s), OtherRecord)| + k] == Filter(s, Registry.IsHomebase)[k]
  {
    SerializeFilter(s);
    FilterSatisfies(s, Registry.IsHomebase);
    LoadNumberedHomes(SerializeItems(s), Filter(s, Registry.IsHomebase), k);
  }

  /** Saving a correctly numbered registry and loading the document back
      keeps every homebase with its number and keeps the counter; the only
      change is that the other objects move in front of the homebases,
      keeping their order. */
  lemma LoadRoundTrip(s: seq<Item>)
    requires Registry.NumberedInOrder(s)
    requires forall it :: it in s && !it.shape.Homebase? ==> it.number == 0
    ensures Load(SerializeItems(s)) == Registry.Listing(Filter(s, OtherItem) + Filter(s, Registry.IsHomebase), Registry.HomebaseCount(s))
  {
    HomesNumbered(s);
    ReloadNumbered(s);
  }

  /** LoadRoundTrip, for a list whose homebases, taken in order, carry the
      numbers 1, 2, … */
  lemma ReloadNumbered(s: seq<Item>)
    requires forall i :: 0 <= i < |Filter(s, Registry.IsHomebase)| ==> Filter(s, Registry.IsHomebase)[i].number == i + 1
    requires forall it :: it in s && !it.shape.Homebase? ==> it.number == 0
    ensures Load(SerializeItems(s)) == Registry.Listing(Filter(s, OtherItem) + Filter(s, Registry.IsHomebase), |Filter(s, Registry.IsHomebase)|)
  {
    var rs := SerializeItems(s);
    var others, homes := Filter(s, OtherItem), Filter(s, Registry.IsHomebase);
    var expected := others + homes;
    var n := |Filter(rs, OtherRecord)|;
    assert n == |others| && |Filter(rs, HomeRecord)| == |homes| by {
      SerializeFilter(s);
    }
    SplitLength(rs);
    var items := Load(rs).items;
    forall j | 0 <= j < |items| ensures items[j] == expected[j] {
      if j < n {
        RoundTripOtherAt(s, j);
      } else {
        RoundTripHomeAt(s, j - n);
      }
    }
    assert items == expected;
  }
}
