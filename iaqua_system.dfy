/**
 * The iaqua system: the two response parsers, which flatten a payload into
 * partial device records and reconcile them with the device table; the
 * argument builders of set_temps, set_aux and set_icl_light; and the System
 * object, whose command methods send a request (appended to a log instead of
 * going over HTTP) and parse the decoded reply they are handed.
 */
module IaquaSystem {
  import opened Wrappers
  import opened Text
  import opened Json
  import opened IaquaDevice

  // ---------------------------------------------------------------------
  // Reconciling partial records with the device table

  /** Every field of rec is in data with rec's value. */
  predicate Within(rec: Record, data: Record) {
    forall f :: f in rec ==> f in data && data[f] == rec[f]
  }

  /** for dk, dv in rec.items(): dev.data[dk] = dv */
  function Merged(dev: Device, rec: Record): (r: Device)
    ensures r.kind == dev.kind
    ensures Within(rec, r.data)
    ensures forall f :: f !in rec ==> (f in r.data <==> f in dev.data) && (f in dev.data ==> r.data[f] == dev.data[f])
  {
    Device(dev.kind, dev.data + rec)
  }

  /** Merging a record whose fields the device already holds changes nothing. */
  lemma MergedAbsorbed(dev: Device, rec: Record)
    requires Within(rec, dev.data)
    ensures Merged(dev, rec) == dev
  {
    assert dev.data + rec == dev.data;
  }

  /** Merging the same partial record twice is merging it once. */
  lemma MergedIdempotent(dev: Device, rec: Record)
    ensures Merged(Merged(dev, rec), rec) == Merged(dev, rec)
  {
    MergedAbsorbed(Merged(dev, rec), rec);
  }

  /** The table after a batch, and the exception that cut it short. */
  datatype Outcome = Outcome(table: Table, fault: Option<Fault>)

  /**
   * One (k, rec) of a batch: an existing device takes rec's fields; a new key
   * is classified and inserted, skipped when the classifier raises
   * NotSupported, and any other exception ends the batch.
   */
  function Absorb(t: Table, k: string, rec: Record): (r: Outcome)
    ensures r.fault.Some? <==> k !in t && Classify(rec).Err? && Classify(rec).error != NotSupported
    ensures r.fault.Some? ==> r.table == t && r.fault == Some(Classify(rec).error)
    ensures r.fault.None? ==> (k in r.table <==> k in t || Classify(rec).Ok?)
    ensures r.fault.None? && k in r.table ==> Within(rec, r.table[k].data)
    ensures k in t ==> r.table[k].kind == t[k].kind
    ensures k !in t && Classify(rec).Ok? ==> r.table[k] == Device(Classify(rec).value, rec)
    ensures forall k' :: k' != k ==> (k' in r.table <==> k' in t) && (k' in t ==> r.table[k'] == t[k'])
  {
    if k in t then Outcome(t[k := Merged(t[k], rec)], None)
    else
      match Classify(rec)
      case Ok(kind) => Outcome(t[k := Device(kind, rec)], None)
      case Err(f) => if f == NotSupported then Outcome(t, None) else Outcome(t, Some(f))
  }

  /** The flattened records of a payload: an ordered dict from device name to partial record. */
  type Batch = seq<(string, Record)>

  predicate HasKey(b: Batch, k: string) {
    exists i :: 0 <= i < |b| && b[i].0 == k
  }

  predicate DistinctKeys(b: Batch) {
    forall i, j :: 0 <= i < j < |b| ==> b[i].0 != b[j].0
  }

  /** The record under k (the last one, should k occur twice). */
  function Find(b: Batch, k: string): (r: Option<Record>)
    ensures r.Some? <==> HasKey(b, k)
    ensures r.Some? ==> exists i :: 0 <= i < |b| && b[i] == (k, r.value)
  {
    if b == [] then None
    else if b[|b| - 1].0 == k then Some(b[|b| - 1].1)
    else Find(b[..|b| - 1], k)
  }

  /** devices[k] = rec, or devices.update({k: rec}): a key already present keeps its place, a new one goes last. */
  function Put(b: Batch, k: string, rec: Record): (r: Batch)
    ensures HasKey(b, k) ==> |r| == |b|
    ensures !HasKey(b, k) ==> r == b + [(k, rec)]
    ensures forall i :: 0 <= i < |b| ==> r[i] == if b[i].0 == k then (k, rec) else b[i]
  {
    if HasKey(b, k) then seq(|b|, i requires 0 <= i < |b| => if b[i].0 == k then (k, rec) else b[i])
    else b + [(k, rec)]
  }

  /** After Put the key reads back its record, every other key reads what it did, and keys stay distinct. */
  lemma {:induction false} PutFind(b: Batch, k: string, rec: Record)
    ensures Find(Put(b, k, rec), k) == Some(rec)
    ensures forall k' :: k' != k ==> Find(Put(b, k, rec), k') == Find(b, k')
    ensures DistinctKeys(b) ==> DistinctKeys(Put(b, k, rec))
  {
    var r := Put(b, k, rec);
    if HasKey(b, k) {
      var n := |b| - 1;
      var p := b[..n];
      if b[n].0 != k {
        assert HasKey(p, k) by {
          var i :| 0 <= i < |b| && b[i].0 == k;
          assert p[i] == b[i];
        }
        assert r[..n] == Put(p, k, rec);
        PutFind(p, k, rec);
      } else if HasKey(p, k) {
        assert r[..n] == Put(p, k, rec);
        PutFind(p, k, rec);
      } else {
        assert r[..n] == p;
      }
    } else {
      assert r[..|r| - 1] == b;
    }
  }

  /**
   * The reconciling loop: each (k, rec) of the batch in order, until an
   * exception other than NotSupported.
   */
  function Reconcile(t: Table, b: Batch): (r: Outcome)
    ensures r.fault != Some(NotSupported)
  {
    if b == [] then Outcome(t, None)
    else
      var o := Reconcile(t, b[..|b| - 1]);
      if o.fault.Some? then o else Absorb(o.table, b[|b| - 1].0, b[|b| - 1].1)
  }

  lemma ReconcileNext(t: Table, b: Batch, i: nat)
    requires i < |b|
    ensures Reconcile(t, b[..i + 1])
         == var o := Reconcile(t, b[..i]); if o.fault.Some? then o else Absorb(o.table, b[i].0, b[i].1)
  {
    assert b[..i + 1][..i] == b[..i];
  }

  /** Once a prefix of the batch raised, the whole batch ends with that table and exception. */
  lemma {:induction false} ReconcileStaysFaulted(t: Table, b: Batch, i: nat)
    requires i <= |b| && Reconcile(t, b[..i]).fault.Some?
    ensures Reconcile(t, b) == Reconcile(t, b[..i])
    decreases |b| - i
  {
    if i < |b| {
      ReconcileNext(t, b, i);
      ReconcileStaysFaulted(t, b, i + 1);
    } else {
      assert b[..i] == b;
    }
  }

  /** Devices are never removed, and a device keeps its kind whatever the batch. */
  lemma {:induction false} ReconcileKeepsDevices(t: Table, b: Batch)
    ensures forall k :: k in t ==> k in Reconcile(t, b).table && Reconcile(t, b).table[k].kind == t[k].kind
  {
    if b != [] {
      ReconcileKeepsDevices(t, b[..|b| - 1]);
    }
  }

  /** Some record of the batch under k classifies. */
  predicate Classifies(b: Batch, k: string) {
    exists i :: 0 <= i < |b| && b[i].0 == k && Classify(b[i].1).Ok?
  }

  /**
   * When the batch runs to the end, a key is in the table exactly when it was
   * before or one of its records classifies; a record the classifier refuses
   * is skipped.
   */
  lemma {:induction false} ReconcileMembership(t: Table, b: Batch)
    requires Reconcile(t, b).fault.None?
    ensures forall k :: k in Reconcile(t, b).table <==> k in t || Classifies(b, k)
  {
    if b != [] {
      var p := b[..|b| - 1];
      var o := Reconcile(t, p);
      assert o.fault.None? && Reconcile(t, b) == Absorb(o.table, b[|b| - 1].0, b[|b| - 1].1);
      ReconcileMembership(t, p);
      ClassifiesLast(b);
    }
  }

  /** A key classifies in a batch when it does in all but the last record, or in the last one. */
  lemma ClassifiesLast(b: Batch)
    requires b != []
    ensures forall k :: Classifies(b, k) <==> Classifies(b[..|b| - 1], k) || (b[|b| - 1].0 == k && Classify(b[|b| - 1].1).Ok?)
  {
    var p := b[..|b| - 1];
    forall k ensures Classifies(b, k) <==> Classifies(p, k) || (b[|b| - 1].0 == k && Classify(b[|b| - 1].1).Ok?) {
      if Classifies(b, k) {
        var i :| 0 <= i < |b| && b[i].0 == k && Classify(b[i].1).Ok?;
        if i < |p| {
          assert p[i] == b[i];
        }
      }
      if Classifies(p, k) {
        var i :| 0 <= i < |p| && p[i].0 == k && Classify(p[i].1).Ok?;
        assert b[i] == p[i];
      }
    }
  }

  /** A batch with no hard failure runs to the end: records the classifier refuses are dropped, not fatal. */
  lemma {:induction false} ReconcileCompletes(t: Table, b: Batch)
    requires forall i :: 0 <= i < |b| ==> b[i].0 in t || Classify(b[i].1).Ok? || Classify(b[i].1) == Err(NotSupported)
    ensures Reconcile(t, b).fault.None?
  {
    if b != [] {
      var p := b[..|b| - 1];
      ReconcileCompletes(t, p);
      ReconcileKeepsDevices(t, p);
    }
  }

  /**
   * Every record of the batch is reflected in the table: its device holds
   * its fields, or it is absent because the classifier refused it.
   */
  predicate Absorbed(t: Table, b: Batch) {
    forall i :: 0 <= i < |b| ==>
      (b[i].0 in t && Within(b[i].1, t[b[i].0].data)) || (b[i].0 !in t && Classify(b[i].1) == Err(NotSupported))
  }

  lemma {:induction false} ReconcileAbsorbs(t: Table, b: Batch)
    requires DistinctKeys(b) && Reconcile(t, b).fault.None?
    ensures Absorbed(Reconcile(t, b).table, b)
  {
    if b != [] {
      var p := b[..|b| - 1];
      ReconcileAbsorbs(t, p);
      var t1 := Reconcile(t, p).table;
      var t2 := Reconcile(t, b).table;
      var n := |b| - 1;
      forall i | 0 <= i < |b|
        ensures (b[i].0 in t2 && Within(b[i].1, t2[b[i].0].data)) || (b[i].0 !in t2 && Classify(b[i].1) == Err(NotSupported))
      {
        if i < n {
          assert p[i] == b[i];
          assert b[i].0 != b[n].0;
        }
      }
    }
  }

  lemma {:induction false} AbsorbedIsFixedPoint(t: Table, b: Batch)
    requires Absorbed(t, b)
    ensures Reconcile(t, b) == Outcome(t, None)
  {
    if b != [] {
      var p := b[..|b| - 1];
      assert Absorbed(t, p) by {
        forall i | 0 <= i < |p| ensures p[i] == b[i] { }
      }
      AbsorbedIsFixedPoint(t, p);
      var n := |b| - 1;
      if b[n].0 in t {
        MergedAbsorbed(t[b[n].0], b[n].1);
        assert t[b[n].0 := t[b[n].0]] == t;
      }
    }
  }

  /** Reconciling the same batch a second time leaves the table as the first time did. */
  lemma ReconcileIdempotent(t: Table, b: Batch)
    requires DistinctKeys(b) && Reconcile(t, b).fault.None?
    ensures Reconcile(Reconcile(t, b).table, b) == Reconcile(t, b)
  {
    ReconcileAbsorbs(t, b);
    AbsorbedIsFixedPoint(Reconcile(t, b).table, b);
  }

  // ---------------------------------------------------------------------
  // Flattening a home_screen payload

  /** f"icl_zone_{zoneId}", zone 1 when the record has no zoneId. */
  function ZoneKey(rec: Record): (r: Result<string, Fault>)
    ensures "zoneId" !in rec ==> r == Ok("icl_zone_1")
    ensures "zoneId" in rec && rec["zoneId"].Str? ==> r == Ok("icl_zone_" + rec["zoneId"].s)
    ensures "zoneId" in rec && rec["zoneId"].Int? ==> r == Ok("icl_zone_" + IntToStr(rec["zoneId"].i))
    ensures r.Err? <==> "zoneId" in rec && (rec["zoneId"].Object? || rec["zoneId"].Array?)
  {
    assert Format(Int(1)) == Ok("1") && "icl_zone_" + "1" == "icl_zone_1";
    var id :- Format(Get(rec, "zoneId", Int(1)));
    Ok("icl_zone_" + id)
  }

  /**
   * One element of icl_custom_color_info: a second element for a zone is
   * merged into the zone's record; the zone's first element becomes its
   * record, named after the zone.
   */
  function ColorInfoStep(b: Batch, info: Value): (r: Result<Batch, Fault>)
    ensures !info.Object? ==> r == Ok(b)
    ensures info.Object? ==> (r.Ok? <==> ZoneKey(ToRecord(info.fields)).Ok?)
    ensures r.Ok? && info.Object? ==>
      var rec := ToRecord(info.fields);
      var key := ZoneKey(rec).value;
      && Find(r.value, key) == Some(if Find(b, key).Some? then Find(b, key).value + rec else rec["name" := Str(key)])
      && forall k :: k != key ==> Find(r.value, k) == Find(b, k)
  {
    if !info.Object? then Ok(b)
    else
      var rec := ToRecord(info.fields);
      var key :- ZoneKey(rec);
      var zone := if Find(b, key).Some? then Find(b, key).value + rec else rec["name" := Str(key)];
      PutFind(b, key, zone);
      Ok(Put(b, key, zone))
  }

  /** x is an object whose zone key is k. */
  predicate NamesZone(x: Value, k: string) {
    x.Object? && ZoneKey(ToRecord(x.fields)) == Ok(k)
  }

  /** k is the zone key of some object in infos. */
  predicate IsZone(infos: seq<Value>, k: string) {
    exists i :: 0 <= i < |infos| && NamesZone(infos[i], k)
  }

  /** The zones of infos are those of its prefix and of its last element. */
  lemma IsZoneLast(infos: seq<Value>, k: string)
    requires infos != []
    ensures IsZone(infos, k) <==> IsZone(infos[..|infos| - 1], k) || NamesZone(infos[|infos| - 1], k)
  {
    var p := infos[..|infos| - 1];
    if IsZone(infos, k) {
      var i :| 0 <= i < |infos| && NamesZone(infos[i], k);
      if i < |p| {
        assert p[i] == infos[i];
      }
    }
    if IsZone(p, k) {
      var i :| 0 <= i < |p| && NamesZone(p[i], k);
      assert infos[i] == p[i];
    }
  }

  /** The zone list adds one record per zone and touches no other record. */
  lemma {:induction false} ColorInfosZones(b: Batch, infos: seq<Value>)
    requires Fold(ColorInfoStep, b, infos).Ok?
    ensures forall k :: Find(Fold(ColorInfoStep, b, infos).value, k).Some? <==> Find(b, k).Some? || IsZone(infos, k)
    ensures forall k :: !IsZone(infos, k) ==> Find(Fold(ColorInfoStep, b, infos).value, k) == Find(b, k)
  {
    if infos != [] {
      var n := |infos| - 1;
      var p := infos[..n];
      ColorInfosZones(b, p);
      var r0 := Fold(ColorInfoStep, b, p).value;
      var r := Fold(ColorInfoStep, b, infos).value;
      assert ColorInfoStep(r0, infos[n]) == Ok(r);
      forall k
        ensures Find(r, k).Some? <==> Find(b, k).Some? || IsZone(infos, k)
        ensures !IsZone(infos, k) ==> Find(r, k) == Find(b, k)
      {
        IsZoneLast(infos, k);
      }
    }
  }

  /** One entry of home_screen[4:]. */
  function HomeStep(b: Batch, x: Value): Result<Batch, Fault> {
    var entry :- FirstEntry(x);
    var name := entry.0;
    var state := entry.1;
    if name == "icl_custom_color_info" && state.Array? then Fold(ColorInfoStep, b, state.items)
    else if name == "heatpump_info" && state.Object? then Ok(Put(b, name, ToRecord(state.fields)["name" := Str(name)]))
    else if name == "swc_info" && state.Object? then
      var rec := ToRecord(state.fields);
      if Truthy(Get(rec, "isswcPresent", Bool(false))) then Ok(Put(b, name, rec["name" := Str(name)])) else Ok(b)
    else Ok(Put(b, name, map["name" := Str(name), "state" := state]))
  }

  /** An entry that is not one of the three special blocks. */
  predicate Plain(name: string, state: Value) {
    !(name == "icl_custom_color_info" && state.Array?)
    && !(name == "heatpump_info" && state.Object?)
    && !(name == "swc_info" && state.Object?)
  }

  /**
   * The record an entry of home_screen leaves under its name: heatpump_info
   * whole, swc_info only when present, any other entry {name, state}; no
   * other record changes.
   */
  lemma HomeEntry(b: Batch, x: Value, name: string, state: Value)
    requires FirstEntry(x) == Ok((name, state)) && name != "icl_custom_color_info"
    ensures HomeStep(b, x).Ok?
    ensures forall k :: k != name ==> Find(HomeStep(b, x).value, k) == Find(b, k)
    ensures name == "heatpump_info" && state.Object? ==>
      Find(HomeStep(b, x).value, name) == Some(ToRecord(state.fields)["name" := Str(name)])
    ensures name == "swc_info" && state.Object? ==>
      var present := Truthy(Get(ToRecord(state.fields), "isswcPresent", Bool(false)));
      Find(HomeStep(b, x).value, name) == if present then Some(ToRecord(state.fields)["name" := Str(name)]) else Find(b, name)
    ensures Plain(name, state) ==> Find(HomeStep(b, x).value, name) == Some(map["name" := Str(name), "state" := state])
  {
    if name == "heatpump_info" && state.Object? {
      PutFind(b, name, ToRecord(state.fields)["name" := Str(name)]);
    } else if name == "swc_info" && state.Object? {
      PutFind(b, name, ToRecord(state.fields)["name" := Str(name)]);
    } else {
      PutFind(b, name, map["name" := Str(name), "state" := state]);
    }
  }

  // ---------------------------------------------------------------------
  // Flattening a devices_screen payload

  /**
   * The (key, value) pair dict.update reads from one element of an iterable
   * of pairs: the element must iterate to exactly two items, and the first
   * must be usable as a key.
   */
  function PairOf(e: Value): Result<(string, Value), Fault> {
    var items :- Iterate(e);
    if |items| != 2 then Err(ValueError)
    else if items[0].Str? then Ok((items[0].s, items[1]))
    else Err(TypeError)
  }

  /**
   * [key, value] and a two-character string are pairs; a dict is one when it
   * has two keys; a list or string of another length raises ValueError; a
   * number, boolean, None, or a list or dict in key position raises TypeError.
   */
  lemma PairShapes(e: Value)
    ensures e.Array? && |e.items| == 2 && e.items[0].Str? ==> PairOf(e) == Ok((e.items[0].s, e.items[1]))
    ensures e.Str? && |e.s| == 2 ==> PairOf(e) == Ok(([e.s[0]], Str([e.s[1]])))
    ensures e.Object? ==> (PairOf(e).Ok? <==> |KeyOrder(e.fields)| == 2)
    ensures (e.Array? && |e.items| != 2) || (e.Str? && |e.s| != 2) ==> PairOf(e) == Err(ValueError)
    ensures e.Array? && |e.items| == 2 && (e.items[0].Array? || e.items[0].Object?) ==> PairOf(e) == Err(TypeError)
    ensures e.Int? || e.Bool? || e.Null? ==> PairOf(e) == Err(TypeError)
  {
  }

  /** One more pair read from an iterable of pairs. */
  function AddPair(acc: Params, e: Value): Result<Params, Fault> {
    var kv :- PairOf(e);
    Ok(acc + [kv])
  }

  /**
   * The writes attrs.update(y) makes, in order: a dict's own items, else the
   * pairs read from iterating y.
   */
  function Writes(y: Value): Result<Params, Fault> {
    if y.Object? then Ok(y.fields)
    else
      var es :- Iterate(y);
      Fold(AddPair, [], es)
  }

  /** Reading the pairs succeeds exactly when every element is a pair. */
  lemma PairsReadOk(es: seq<Value>)
    ensures Fold(AddPair, [], es).Ok? <==> forall i :: 0 <= i < |es| ==> PairOf(es[i]).Ok?
  {
    FoldOkAll(AddPair, e => PairOf(e).Ok?, [], es);
  }

  /** The pairs read are the elements' pairs, in order. */
  lemma {:induction false} PairsRead(es: seq<Value>)
    requires Fold(AddPair, [], es).Ok?
    ensures |Fold(AddPair, [], es).value| == |es|
    ensures forall i :: 0 <= i < |es| ==> PairOf(es[i]).Ok? && Fold(AddPair, [], es).value[i] == PairOf(es[i]).value
  {
    if es != [] {
      var p := es[..|es| - 1];
      var w := Fold(AddPair, [], p);
      assert w.Ok?;
      PairsRead(p);
      assert forall i :: 0 <= i < |p| ==> p[i] == es[i];
      assert Fold(AddPair, [], es).value == w.value + [PairOf(es[|es| - 1]).value];
    }
  }

  /** A string of length one is not a pair, so iterating a non-empty string raises ValueError. */
  lemma {:induction false} CharsAreNoPairs(acc: Params, es: seq<Value>)
    requires forall i :: 0 <= i < |es| ==> es[i].Str? && |es[i].s| == 1
    ensures Fold(AddPair, acc, es) == if es == [] then Ok(acc) else Err(ValueError)
  {
    if |es| > 1 {
      CharsAreNoPairs(acc, es[..|es| - 1]);
    }
  }

  /**
   * update() on a list of pairs writes the pairs in order; on an empty list or
   * an empty string it writes nothing; on any other string, or a number, a
   * boolean or None, it raises.
   */
  lemma WritesCases(y: Value)
    ensures y.Object? ==> Writes(y) == Ok(y.fields)
    ensures y.Array? ==> (Writes(y).Ok? <==> forall i :: 0 <= i < |y.items| ==> PairOf(y.items[i]).Ok?)
    ensures y.Array? && Writes(y).Ok? ==>
      |Writes(y).value| == |y.items| && forall i :: 0 <= i < |y.items| ==> Writes(y).value[i] == PairOf(y.items[i]).value
    ensures y.Str? ==> Writes(y) == if y.s == "" then Ok([]) else Err(ValueError)
    ensures y.Int? || y.Bool? || y.Null? ==> Writes(y) == Err(TypeError)
  {
    if y.Array? {
      PairsReadOk(y.items);
      if Writes(y).Ok? {
        PairsRead(y.items);
      }
    } else if y.Str? {
      CharsAreNoPairs([], Iterate(y).value);
    }
  }

  /**
   * attrs.update(y) for one element y of an aux block: each write replaces
   * the field it names, every other field keeps its value.
   */
  function AuxUpdate(attrs: Record, y: Value): (r: Result<Record, Fault>)
    ensures r.Ok? <==> Writes(y).Ok?
    ensures r.Err? ==> r.error == Writes(y).error
    ensures r.Ok? ==> forall k :: k in r.value <==> k in attrs || Lookup(Writes(y).value, k).Some?
    ensures r.Ok? ==> forall k :: k in r.value ==>
      r.value[k] == if Lookup(Writes(y).value, k).Some? then Lookup(Writes(y).value, k).value else attrs[k]
  {
    var w :- Writes(y);
    Ok(attrs + ToRecord(w))
  }

  /** update() with a list holding one pair sets that pair's key. */
  lemma AuxUpdateOnePair(attrs: Record, e: Value)
    requires PairOf(e).Ok?
    ensures AuxUpdate(attrs, Array([e])) == Ok(attrs[PairOf(e).value.0 := PairOf(e).value.1])
  {
    WritesOnePair(e);
    MergeOnePair(attrs, PairOf(e).value);
  }

  lemma WritesOnePair(e: Value)
    requires PairOf(e).Ok?
    ensures Writes(Array([e])) == Ok([PairOf(e).value])
  {
    assert Iterate(Array([e])) == Ok([e]);
    assert [e][..0] == [];
    assert Fold(AddPair, [], [e]) == AddPair([], e);
    assert [] + [PairOf(e).value] == [PairOf(e).value];
  }

  lemma MergeOnePair(attrs: Record, kv: (string, Value))
    ensures attrs + ToRecord([kv]) == attrs[kv.0 := kv.1]
  {
    assert ToRecord([kv]) == ToRecord([])[kv.0 := kv.1];
  }

  /** update([[k, v]]) sets k to v, and update(["cd"]) sets "c" to "d". */
  lemma AuxUpdatePairShapes(attrs: Record, k: string, v: Value, c: char, d: char)
    ensures AuxUpdate(attrs, Array([Array([Str(k), v])])) == Ok(attrs[k := v])
    ensures AuxUpdate(attrs, Array([Str([c, d])])) == Ok(attrs[[c] := Str([d])])
  {
    PairShapes(Array([Str(k), v]));
    PairShapes(Str([c, d]));
    AuxUpdateOnePair(attrs, Array([Str(k), v]));
    AuxUpdateOnePair(attrs, Str([c, d]));
  }

  /** update() with an empty list or an empty string changes nothing. */
  lemma AuxUpdateEmpty(attrs: Record, y: Value)
    requires y == Array([]) || y == Str("")
    ensures AuxUpdate(attrs, y) == Ok(attrs)
  {
    WritesCases(y);
    assert Writes(y) == Ok([]);
    assert attrs + ToRecord([]) == attrs;
  }

  /** {"aux": aux.replace("aux_", ""), "name": aux} */
  function AuxAttrs(aux: string): Record {
    map["aux" := Str(RemoveAll(aux, "aux_")), "name" := Str(aux)]
  }

  /** One entry of devices_screen[3:]: an aux block flattened into one record. */
  function DevicesStep(b: Batch, x: Value): Result<Batch, Fault> {
    var entry :- FirstEntry(x);
    var aux := entry.0;
    if aux == "icl_info_list" then Ok(b)
    else
      var ys :- Iterate(entry.1);
      var attrs :- Fold(AuxUpdate, AuxAttrs(aux), ys);
      Ok(Put(b, aux, attrs))
  }

  /** The index of the last element of ys whose update writes field f. */
  function LastSetting(ys: seq<Value>, f: string): (r: Option<nat>)
    ensures r.Some? ==> r.value < |ys| && Writes(ys[r.value]).Ok? && Lookup(Writes(ys[r.value]).value, f).Some?
    ensures r.None? ==> forall i :: 0 <= i < |ys| && Writes(ys[i]).Ok? ==> Lookup(Writes(ys[i]).value, f).None?
    ensures r.Some? ==> forall i :: r.value < i < |ys| && Writes(ys[i]).Ok? ==> Lookup(Writes(ys[i]).value, f).None?
  {
    if ys == [] then None
    else if Writes(ys[|ys| - 1]).Ok? && Lookup(Writes(ys[|ys| - 1]).value, f).Some? then Some(|ys| - 1)
    else LastSetting(ys[..|ys| - 1], f)
  }

  /** Flattening an aux block: each field takes its value from the last update that writes it, else from the base. */
  lemma {:induction false} AuxLastWins(attrs: Record, ys: seq<Value>, f: string)
    requires Fold(AuxUpdate, attrs, ys).Ok?
    ensures var r := Fold(AuxUpdate, attrs, ys).value;
      match LastSetting(ys, f)
      case Some(i) => f in r && r[f] == Lookup(Writes(ys[i]).value, f).value
      case None => (f in r <==> f in attrs) && (f in attrs ==> r[f] == attrs[f])
  {
    if ys != [] {
      AuxLastWins(attrs, ys[..|ys| - 1], f);
    }
  }

  /**
   * The fold over an aux block succeeds exactly when every element's update
   * succeeds; otherwise it raises what the first failing update raises.
   */
  lemma {:induction false} AuxFoldOk(attrs: Record, ys: seq<Value>)
    ensures Fold(AuxUpdate, attrs, ys).Ok? <==> forall i :: 0 <= i < |ys| ==> Writes(ys[i]).Ok?
    ensures Fold(AuxUpdate, attrs, ys).Err? ==>
      exists i :: 0 <= i < |ys| && Writes(ys[i]).Err? && Fold(AuxUpdate, attrs, ys).error == Writes(ys[i]).error
        && forall j :: 0 <= j < i ==> Writes(ys[j]).Ok?
  {
    if ys != [] {
      var p := ys[..|ys| - 1];
      AuxFoldOk(attrs, p);
      assert forall i :: 0 <= i < |p| ==> p[i] == ys[i];
    }
  }

  /**
   * An aux_<n> block whose dicts do not set aux or name yields the record
   * named aux_<n> with aux = <n>, and set_aux on it sends set_aux_<n>.
   */
  lemma AuxNaming(rest: string, ys: seq<Value>)
    requires !Contains(rest, "aux_")
    requires Fold(AuxUpdate, AuxAttrs("aux_" + rest), ys).Ok?
    requires LastSetting(ys, "aux").None? && LastSetting(ys, "name").None?
    ensures var r := Fold(AuxUpdate, AuxAttrs("aux_" + rest), ys).value;
      && "aux" in r && r["aux"] == Str(rest)
      && "name" in r && r["name"] == Str("aux_" + rest)
      && AuxCommand(r["aux"]) == Ok("set_aux_" + rest)
      && AuxCommand(r["name"]) == Ok("set_aux_" + rest)
  {
    RemoveLeading("aux_", rest);
    AuxLastWins(AuxAttrs("aux_" + rest), ys, "aux");
    AuxLastWins(AuxAttrs("aux_" + rest), ys, "name");
  }

  /** set_aux's command: "set_aux_" + aux.replace("aux_", ""). */
  function AuxCommand(aux: Value): (r: Result<string, Fault>)
    ensures r.Ok? <==> aux.Str?
    ensures aux.Str? ==> r.value == "set_aux_" + RemoveAll(aux.s, "aux_")
  {
    if aux.Str? then Ok("set_aux_" + RemoveAll(aux.s, "aux_")) else Err(AttributeError("replace"))
  }

  /** One element of the root icl_info_list: merged into its zone's device, or classified as a new device. */
  function ZoneInfo(t: Table, info: Value): (r: Outcome)
    ensures !info.Object? ==> r == Outcome(t, None)
    ensures info.Object? && ZoneKey(ToRecord(info.fields)).Ok? && ZoneKey(ToRecord(info.fields)).value in t ==>
      var key := ZoneKey(ToRecord(info.fields)).value;
      && r.fault.None? && key in r.table
      && r.table[key] == Merged(t[key], ToRecord(info.fields))
      && forall k :: k != key ==> (k in r.table <==> k in t) && (k in t ==> r.table[k] == t[k])
    ensures info.Object? && ZoneKey(ToRecord(info.fields)).Err? ==>
      r == Outcome(t, Some(ZoneKey(ToRecord(info.fields)).error))
    ensures info.Object? && ZoneKey(ToRecord(info.fields)).Ok? && ZoneKey(ToRecord(info.fields)).value !in t ==>
      var key := ZoneKey(ToRecord(info.fields)).value;
      r == Absorb(t, key, ToRecord(info.fields)["name" := Str(key)])
  {
    if !info.Object? then Outcome(t, None)
    else
      var rec := ToRecord(info.fields);
      match ZoneKey(rec)
      case Err(f) => Outcome(t, Some(f))
      case Ok(key) => if key in t then Absorb(t, key, rec) else Absorb(t, key, rec["name" := Str(key)])
  }

  /** The icl_info_list loop, which writes into the device table as it goes. */
  function ZoneInfos(t: Table, infos: seq<Value>): Outcome {
    if infos == [] then Outcome(t, None)
    else
      var o := ZoneInfos(t, infos[..|infos| - 1]);
      if o.fault.Some? then o else ZoneInfo(o.table, infos[|infos| - 1])
  }

  lemma ZoneInfosNext(t: Table, infos: seq<Value>, i: nat)
    requires i < |infos|
    ensures ZoneInfos(t, infos[..i + 1])
         == var o := ZoneInfos(t, infos[..i]); if o.fault.Some? then o else ZoneInfo(o.table, infos[i])
  {
    assert infos[..i + 1][..i] == infos[..i];
  }

  lemma {:induction false} ZoneInfosStaysFaulted(t: Table, infos: seq<Value>, i: nat)
    requires i <= |infos| && ZoneInfos(t, infos[..i]).fault.Some?
    ensures ZoneInfos(t, infos) == ZoneInfos(t, infos[..i])
    decreases |infos| - i
  {
    if i < |infos| {
      ZoneInfosNext(t, infos, i);
      ZoneInfosStaysFaulted(t, infos, i + 1);
    } else {
      assert infos[..i] == infos;
    }
  }

  // ---------------------------------------------------------------------
  // The two parsers

  /** screen[0]["status"] */
  function Status(screen: Value): Result<Value, Fault> {
    var first :- Item(screen, 0);
    Member(first, "status")
  }

  /** home_screen[3]["temp_scale"] */
  function TempScale(screen: Value): Result<Value, Fault> {
    var entry :- Item(screen, 3);
    Member(entry, "temp_scale")
  }

  /** The device table, the temperature unit and the exception a parser leaves. */
  datatype Parsed = Parsed(table: Table, unit: Value, fault: Option<Fault>)

  /** _parse_home_response */
  function HomeParse(t: Table, unit: Value, body: Value): (r: Parsed)
    ensures Member(body, "home_screen").Ok? && Status(Member(body, "home_screen").value) == Ok(Str("Offline")) ==>
      r == Parsed(t, unit, Some(SystemOffline))
    ensures r.fault.None? ==> Member(body, "home_screen").Ok? && TempScale(Member(body, "home_screen").value) == Ok(r.unit)
  {
    match Member(body, "home_screen")
    case Err(f) => Parsed(t, unit, Some(f))
    case Ok(screen) =>
      match Status(screen)
      case Err(f) => Parsed(t, unit, Some(f))
      case Ok(status) =>
        if status == Str("Offline") then Parsed(t, unit, Some(SystemOffline))
        else
          match TempScale(screen)
          case Err(f) => Parsed(t, unit, Some(f))
          case Ok(scale) =>
            match Fold(HomeStep, [], Slice(screen, 4).value)
            case Err(f) => Parsed(t, scale, Some(f))
            case Ok(b) =>
              var o := Reconcile(t, b);
              Parsed(o.table, scale, o.fault)
  }

  /** _parse_devices_response */
  function DevicesParse(t: Table, body: Value): (r: Outcome)
    ensures Member(body, "devices_screen").Ok? && Status(Member(body, "devices_screen").value) == Ok(Str("Offline")) ==>
      r == Outcome(t, Some(SystemOffline))
  {
    match Member(body, "devices_screen")
    case Err(f) => Outcome(t, Some(f))
    case Ok(screen) =>
      match Status(screen)
      case Err(f) => Outcome(t, Some(f))
      case Ok(status) =>
        if status == Str("Offline") then Outcome(t, Some(SystemOffline))
        else
          var zones := match Lookup<Value>(body.fields, "icl_info_list")
                       case Some(Array(infos)) => ZoneInfos(t, infos)
                       case _ => Outcome(t, None);
          if zones.fault.Some? then zones
          else
            match Fold(DevicesStep, [], Slice(screen, 3).value)
            case Err(f) => Outcome(zones.table, Some(f))
            case Ok(b) => Reconcile(zones.table, b)
  }

  // ---------------------------------------------------------------------
  // Command arguments

  /** A request as the transport receives it: the command and its parameters, before actionID, serial and sessionID. */
  datatype Request = Request(command: string, params: Params)

  /** The value params gives k, else the default: params.get(k, default). */
  function GetParam(params: Params, k: string, default: Value): (r: Value)
    ensures Lookup(params, k).Some? ==> r == Lookup(params, k).value
    ensures Lookup(params, k).None? ==> r == default
  {
    match Lookup(params, k)
    case Some(v) => v
    case None => default
  }

  /** self.devices[key].target_temperature */
  function TargetOf(t: Table, key: string): (r: Result<Value, Fault>)
    ensures key !in t ==> r == Err(KeyError(Str(key)))
    ensures key in t ==> r == TargetTemperature(t[key], t)
  {
    if key in t then TargetTemperature(t[key], t) else Err(KeyError(Str(key)))
  }

  /** The current targets set_temps starts from: spa then pool when there is a spa, else pool alone. */
  function DefaultTemps(t: Table): (r: Result<Params, Fault>)
    ensures r.Ok? <==> (("spa_set_point" in t ==> TargetOf(t, "spa_set_point").Ok?) && TargetOf(t, "pool_set_point").Ok?)
    ensures r.Ok? && "spa_set_point" in t ==>
      Lookup(r.value, "temp1") == Some(TargetOf(t, "spa_set_point").value) && Lookup(r.value, "temp2") == Some(TargetOf(t, "pool_set_point").value)
    ensures r.Ok? && "spa_set_point" !in t ==>
      Lookup(r.value, "temp1") == Some(TargetOf(t, "pool_set_point").value) && Lookup(r.value, "temp2").None?
  {
    if "spa_set_point" in t then
      var spa :- TargetOf(t, "spa_set_point");
      var pool :- TargetOf(t, "pool_set_point");
      var p := [("temp1", spa), ("temp2", pool)];
      assert p[..1] == [("temp1", spa)] && "temp1" != "temp2";
      Ok(p)
    else
      var pool :- TargetOf(t, "pool_set_point");
      Ok([("temp1", pool)])
  }

  /**
   * set_temps's arguments: with a spa, temp1 is the spa's target and temp2
   * the pool's; without one, temp1 is the pool's; the caller's fields then
   * override these.
   */
  function TempArgs(t: Table, temps: Params): (r: Result<Params, Fault>)
    ensures r.Ok? <==> (("spa_set_point" in t ==> TargetOf(t, "spa_set_point").Ok?) && TargetOf(t, "pool_set_point").Ok?)
    ensures r.Ok? && "spa_set_point" in t ==>
      && Lookup(r.value, "temp1") == Some(GetParam(temps, "temp1", TargetOf(t, "spa_set_point").value))
      && Lookup(r.value, "temp2") == Some(GetParam(temps, "temp2", TargetOf(t, "pool_set_point").value))
    ensures r.Ok? && "spa_set_point" !in t ==>
      && Lookup(r.value, "temp1") == Some(GetParam(temps, "temp1", TargetOf(t, "pool_set_point").value))
      && Lookup(r.value, "temp2") == Lookup(temps, "temp2")
    ensures r.Ok? ==> forall k :: Lookup(temps, k).Some? ==> Lookup(r.value, k) == Lookup(temps, k)
  {
    var defaults := DefaultTemps(t);
    if defaults.Err? then Err(defaults.error)
    else
      UpdateOverDefaults(defaults.value, temps);
      Ok(Update(defaults.value, temps))
  }

  /** The caller's temp1 and temp2 override the defaults; a key neither has stays absent. */
  lemma UpdateOverDefaults(defaults: Params, temps: Params)
    ensures Lookup(defaults, "temp1").Some? ==> Lookup(Update(defaults, temps), "temp1") == Some(GetParam(temps, "temp1", Lookup(defaults, "temp1").value))
    ensures Lookup(defaults, "temp2").Some? ==> Lookup(Update(defaults, temps), "temp2") == Some(GetParam(temps, "temp2", Lookup(defaults, "temp2").value))
    ensures Lookup(defaults, "temp2").None? ==> Lookup(Update(defaults, temps), "temp2") == Lookup(temps, "temp2")
  {
  }

  /** The zone an ICL command addresses: data.get("zoneId", "1"). */
  function ZoneParam(data: Params): Value {
    GetParam(data, "zoneId", Str("1"))
  }

  /**
   * set_icl_light's dispatch: on_off_action selects onoff_iclzone, else
   * color_id selects set_iclzone_color, else red_val selects
   * define_iclzone_customcolor; data with none of the three sends nothing.
   */
  function IclCommand(data: Params): (r: Result<Option<Request>, Fault>)
    ensures r == Ok(None) <==>
      Lookup(data, "on_off_action").None? && Lookup(data, "color_id").None? && Lookup(data, "red_val").None?
    ensures r.Err? <==>
      && Lookup(data, "on_off_action").None? && Lookup(data, "color_id").None? && Lookup(data, "red_val").Some?
      && (Lookup(data, "green_val").None? || Lookup(data, "blue_val").None?)
    ensures r.Ok? && r.value.Some? ==> |r.value.value.params| >= 1 && r.value.value.params[0] == ("zone_id", ZoneParam(data))
    ensures Lookup(data, "on_off_action").Some? ==>
      r == Ok(Some(Request("onoff_iclzone", [("zone_id", ZoneParam(data)), ("on_off_action", Lookup(data, "on_off_action").value)])))
    ensures Lookup(data, "on_off_action").None? && Lookup(data, "color_id").Some? ==>
      r == Ok(Some(Request("set_iclzone_color",
        [("zone_id", ZoneParam(data)), ("color_id", Lookup(data, "color_id").value), ("dim_level", GetParam(data, "dim_level", Str("100")))])))
    ensures r.Ok? && r.value.Some? ==> (r.value.value.command == "define_iclzone_customcolor" <==>
      Lookup(data, "on_off_action").None? && Lookup(data, "color_id").None?)
    ensures r.Ok? && r.value.Some? && r.value.value.command == "define_iclzone_customcolor" ==>
      |r.value.value.params| == 5 && r.value.value.params[1..] == [("red_val", Lookup(data, "red_val").value), ("green_val", Lookup(data, "green_val").value),
                                    ("blue_val", Lookup(data, "blue_val").value), ("white_val", GetParam(data, "white_val", Str("0")))]
  {
    var zone := ZoneParam(data);
    if Lookup(data, "on_off_action").Some? then
      Ok(Some(Request("onoff_iclzone", [("zone_id", zone), ("on_off_action", Lookup(data, "on_off_action").value)])))
    else if Lookup(data, "color_id").Some? then
      Ok(Some(Request("set_iclzone_color",
        [("zone_id", zone), ("color_id", Lookup(data, "color_id").value), ("dim_level", GetParam(data, "dim_level", Str("100")))])))
    else if Lookup(data, "red_val").Some? then
      var red := Lookup(data, "red_val").value;
      var green :- ParamField(data, "green_val");
      var blue :- ParamField(data, "blue_val");
      Ok(Some(Request("define_iclzone_customcolor",
        [("zone_id", zone), ("red_val", red), ("green_val", green), ("blue_val", blue), ("white_val", GetParam(data, "white_val", Str("0")))])))
    else Ok(None)
  }

  /** data[k] on a parameter dict */
  function ParamField(data: Params, k: string): (r: Result<Value, Fault>)
    ensures r.Ok? <==> Lookup(data, k).Some?
    ensures r.Ok? ==> r.value == Lookup(data, k).value
  {
    match Lookup(data, k)
    case Some(v) => Ok(v)
    case None => Err(KeyError(Str(k)))
  }

  /**
   * The payloads an ICL light builds for turn_on, turn_off, set_brightness
   * and set_white_value hold zoneStatus, dim_level or white_val, none of
   * which the dispatch recognises: those actions send nothing.
   */
  lemma IclPowerAndLevelSendNothing(d: Record, op: Op, t: Table, unit: Value, fuel: nat)
    requires op.TurnOn? || op.TurnOff? || op.SetBrightness? || op.SetWhiteValue?
    ensures var plan := PlanFuel(Device(IclLight, d), op, t, unit, fuel);
      && (plan.Err? ==> plan.error == InvalidParameter)
      && (plan.Ok? && plan.value.Some? ==> plan.value.value.SetIclLight? && IclCommand(plan.value.value.params) == Ok(None))
  {
    var plan := PlanFuel(Device(IclLight, d), op, t, unit, fuel);
    if plan.Ok? && plan.value.Some? {
      var key := if op.TurnOn? || op.TurnOff? then "zoneStatus" else if op.SetBrightness? then "dim_level" else "white_val";
      var p := plan.value.value.params;
      assert plan.value.value.SetIclLight? && p == [("zoneId", ZoneId(d)), (key, p[1].1)];
      IclPairSendsNothing(ZoneId(d), key, p[1].1);
    }
  }

  /** A payload of zoneId and one field other than on_off_action, color_id and red_val sends nothing. */
  lemma IclPairSendsNothing(zone: Value, key: string, v: Value)
    requires key != "on_off_action" && key != "color_id" && key != "red_val"
    ensures IclCommand([("zoneId", zone), (key, v)]) == Ok(None)
  {
    var p := [("zoneId", zone), (key, v)];
    assert p[..1] == [("zoneId", zone)];
  }

  /** A custom-colour payload: zoneId, the three channels, and white when there is one. */
  predicate CustomColorPayload(p: Params, zone: Value, red: Value, green: Value, blue: Value) {
    && 4 <= |p| <= 5
    && p[0] == ("zoneId", zone) && p[1] == ("red_val", red) && p[2] == ("green_val", green) && p[3] == ("blue_val", blue)
    && (|p| == 5 ==> p[4].0 == "white_val")
  }

  /** A custom-colour payload (zoneId, the three channels, and white when there is one) selects define_iclzone_customcolor. */
  lemma IclCustomColor(p: Params, zone: Value, red: Value, green: Value, blue: Value)
    requires 4 <= |p| <= 5
    requires p[0] == ("zoneId", zone) && p[1] == ("red_val", red) && p[2] == ("green_val", green) && p[3] == ("blue_val", blue)
    requires |p| == 5 ==> p[4].0 == "white_val"
    ensures IclCommand(p) == Ok(Some(Request("define_iclzone_customcolor",
      [("zone_id", zone), ("red_val", red), ("green_val", green), ("blue_val", blue), ("white_val", if |p| == 5 then p[4].1 else Str("0"))])))
  {
    CustomColorAbsent(p, zone, red, green, blue);
    LookupAt(p, 0);
    LookupAt(p, 1);
    LookupAt(p, 2);
    LookupAt(p, 3);
    if |p| == 5 {
      LookupAt(p, 4);
    }
  }

  /** Such a payload has no on_off_action, no color_id, and no white_val unless it has five fields. */
  lemma CustomColorAbsent(p: Params, zone: Value, red: Value, green: Value, blue: Value)
    requires CustomColorPayload(p, zone, red, green, blue)
    ensures Lookup(p, "on_off_action").None? && Lookup(p, "color_id").None?
    ensures |p| == 4 ==> Lookup(p, "white_val").None?
  {
    forall i | 0 <= i < |p|
      ensures p[i].0 == "zoneId" || p[i].0 == "red_val" || p[i].0 == "green_val" || p[i].0 == "blue_val"
           || (|p| == 5 && p[i].0 == "white_val")
    {
      assert i == 0 || i == 1 || i == 2 || i == 3 || i == 4;
    }
  }

  /** set_rgb_color on an ICL light reaches define_iclzone_customcolor, white 0 when the light has no white value. */
  lemma IclRgbDispatch(d: Record, t: Table, unit: Value, fuel: nat, red: int, green: int, blue: int)
    requires Byte(red) && Byte(green) && Byte(blue)
    ensures var plan := PlanFuel(Device(IclLight, d), SetRgbColor(red, green, blue), t, unit, fuel);
      && plan.Ok? && plan.value.Some? && plan.value.value.SetIclLight?
      && IclCommand(plan.value.value.params) == Ok(Some(Request("define_iclzone_customcolor",
           [("zone_id", ZoneId(d)), ("red_val", Decimal(red)), ("green_val", Decimal(green)), ("blue_val", Decimal(blue)),
            ("white_val", match Channel(d, "white_val") case Some(w) => Decimal(w) case None => Str("0"))])))
  {
    var plan := IclRgbPlan(Device(IclLight, d), red, green, blue);
    assert PlanFuel(Device(IclLight, d), SetRgbColor(red, green, blue), t, unit, fuel) == plan;
    var p := plan.value.value.params;
    assert p[..4][0] == p[0] && p[..4][1] == p[1] && p[..4][2] == p[2] && p[..4][3] == p[3];
    IclCustomColor(p, ZoneId(d), Decimal(red), Decimal(green), Decimal(blue));
  }


  // ---------------------------------------------------------------------
  // Commands and refreshes, as functions of the system's state

  /** The request a call sends given the device table, None when it sends nothing, or the exception raised before sending. */
  function RequestOf(call: Call, t: Table): Result<Option<Request>, Fault> {
    match call
    case SetSwitch(command) => Ok(Some(Request(command, [])))
    case SetAux(aux) =>
      var command :- AuxCommand(aux);
      Ok(Some(Request(command, [])))
    case SetLight(params) => Ok(Some(Request("set_light", params)))
    case SetIclLight(params) => IclCommand(params)
    case SetTemps(temps) =>
      var args :- TempArgs(t, temps);
      Ok(Some(Request("set_temps", args)))
    case SetHeatpump(params) => Ok(Some(Request("set_heatpump", params)))
  }

  /** Which parser a command's reply goes to. */
  datatype Parser = HomeParser | DevicesParser | EitherParser

  function ParserOf(call: Call): Parser {
    match call
    case SetSwitch(_) => HomeParser
    case SetTemps(_) => HomeParser
    case SetHeatpump(_) => HomeParser
    case SetAux(_) => DevicesParser
    case SetLight(_) => EitherParser
    case SetIclLight(_) => EitherParser
  }

  /** set_light and set_icl_light: an empty reply ends the call; otherwise the screen the reply holds is parsed. */
  function EitherParse(t: Table, unit: Value, body: Value): (r: Parsed)
    ensures !Truthy(body) ==> r == Parsed(t, unit, None)
  {
    if !Truthy(body) then Parsed(t, unit, None)
    else
      match In("home_screen", body)
      case Err(f) => Parsed(t, unit, Some(f))
      case Ok(home) =>
        if home then HomeParse(t, unit, body)
        else if In("devices_screen", body) == Ok(true) then
          var o := DevicesParse(t, body);
          Parsed(o.table, unit, o.fault)
        else Parsed(t, unit, None)
  }

  function ParseReply(t: Table, unit: Value, parser: Parser, body: Value): Parsed {
    match parser
    case HomeParser => HomeParse(t, unit, body)
    case DevicesParser =>
      var o := DevicesParse(t, body);
      Parsed(o.table, unit, o.fault)
    case EitherParser => EitherParse(t, unit, body)
  }

  /** What a System object holds: its devices, temperature unit, online flag, last refresh time, and the requests sent. */
  datatype Snapshot = Snapshot(table: Table, unit: Value, online: Option<bool>, lastRefresh: int, log: seq<Request>)

  /**
   * A call made with the reply the service gives: the request is logged,
   * a service error raises, and an answer is parsed.
   */
  function Performed(call: Call, reply: Reply, s: Snapshot): (Snapshot, Option<Fault>) {
    match RequestOf(call, s.table)
    case Err(f) => (s, Some(f))
    case Ok(None) => (s, None)
    case Ok(Some(req)) =>
      var sent := s.(log := s.log + [req]);
      match reply
      case ServiceError => (sent, Some(ServiceFailure))
      case Answer(body) =>
        var p := ParseReply(s.table, s.unit, ParserOf(call), body);
        (sent.(table := p.table, unit := p.unit), p.fault)
  }

  /** The service's reply to a request: a decoded body, or the transport's AqualinkServiceException. */
  datatype Reply = Answer(body: Value) | ServiceError

  /** A device action: its plan, then the call the plan makes. */
  function Operated(dev: Device, op: Op, reply: Reply, s: Snapshot): (Snapshot, Option<Fault>) {
    match PlanOf(dev, op, s.table, s.unit)
    case Err(f) => (s, Some(f))
    case Ok(None) => (s, None)
    case Ok(Some(call)) => Performed(call, reply, s)
  }

  /** A command never changes the online flag or the refresh time, and sends at most one request. */
  lemma PerformedBookkeeping(call: Call, reply: Reply, s: Snapshot)
    ensures var (s', _) := Performed(call, reply, s);
      && s'.online == s.online && s'.lastRefresh == s.lastRefresh
      && (s'.log == s.log || (RequestOf(call, s.table).Ok? && RequestOf(call, s.table).value.Some?
                              && s'.log == s.log + [RequestOf(call, s.table).value.value]))
  {
  }

  /** turn_on, turn_off, set_brightness and set_white_value on an ICL light leave the system exactly as it was. */
  lemma IclActionsChangeNothing(d: Record, op: Op, reply: Reply, s: Snapshot)
    requires op.TurnOn? || op.TurnOff? || op.SetBrightness? || op.SetWhiteValue?
    ensures Operated(Device(IclLight, d), op, reply, s).0 == s
    ensures Operated(Device(IclLight, d), op, reply, s).1.Some? ==> Operated(Device(IclLight, d), op, reply, s).1 == Some(InvalidParameter)
  {
    var plan := PlanOf(Device(IclLight, d), op, s.table, s.unit);
    IclPowerAndLevelSendNothing(d, op, s.table, s.unit, |s.table|);
    if plan.Ok? && plan.value.Some? {
      SilentIclCall(plan.value.value.params, reply, s);
    }
  }

  /** An ICL call whose payload the dispatch does not recognise sends nothing and changes nothing. */
  lemma SilentIclCall(p: Params, reply: Reply, s: Snapshot)
    requires IclCommand(p) == Ok(None)
    ensures Performed(SetIclLight(p), reply, s) == (s, None)
  {
  }

  /**
   * update: send get_home, then get_devices; a service error clears the
   * online flag; parse both replies; an offline controller clears it to
   * False; only a complete refresh sets it to True and stamps the time.
   */
  function Refreshed(home: Reply, devs: Reply, finishedAt: int, s: Snapshot): (Snapshot, Option<Fault>) {
    var sentHome := s.(log := s.log + [Request("get_home", [])]);
    match home
    case ServiceError => (sentHome.(online := None), Some(ServiceFailure))
    case Answer(homeBody) =>
      var sent := sentHome.(log := sentHome.log + [Request("get_devices", [])]);
      match devs
      case ServiceError => (sent.(online := None), Some(ServiceFailure))
      case Answer(devicesBody) =>
        var h := HomeParse(s.table, s.unit, homeBody);
        var offline := if h.fault == Some(SystemOffline) then Some(false) else s.online;
        if h.fault.Some? then (sent.(table := h.table, unit := h.unit, online := offline), h.fault)
        else
          var d := DevicesParse(h.table, devicesBody);
          var online := if d.fault.None? then Some(true) else if d.fault == Some(SystemOffline) then Some(false) else s.online;
          var last := if d.fault.None? then finishedAt else s.lastRefresh;
          (sent.(table := d.table, unit := h.unit, online := online, lastRefresh := last), d.fault)
  }

  /** The online flag and the refresh time after update, case by case. */
  lemma RefreshBookkeeping(home: Reply, devs: Reply, finishedAt: int, s: Snapshot)
    ensures var (s', fault) := Refreshed(home, devs, finishedAt, s);
      && (home.ServiceError? ==> s'.online == None && fault == Some(ServiceFailure) && s'.table == s.table
                                 && s'.log == s.log + [Request("get_home", [])])
      && (home.Answer? && devs.ServiceError? ==> s'.online == None && fault == Some(ServiceFailure) && s'.table == s.table)
      && (home.Answer? && devs.Answer? ==> s'.log == s.log + [Request("get_home", []), Request("get_devices", [])])
      && (home.Answer? && devs.Answer? && fault == Some(SystemOffline) ==> s'.online == Some(false))
      && (home.Answer? && devs.Answer? && fault.Some? && fault != Some(SystemOffline) ==> s'.online == s.online)
      && (fault.None? ==> s'.online == Some(true) && s'.lastRefresh == finishedAt)
      && (fault.Some? ==> s'.lastRefresh == s.lastRefresh)
  {
  }

  /** An offline home screen leaves the devices and the temperature unit untouched. */
  lemma OfflineHomeTouchesNothing(devs: Reply, finishedAt: int, s: Snapshot, screen: seq<Value>)
    requires screen != [] && screen[0] == Object([("status", Str("Offline"))])
    ensures var (s', fault) := Refreshed(Answer(Object([("home_screen", Array(screen))])), devs, finishedAt, s);
      devs.Answer? ==> s'.table == s.table && s'.unit == s.unit && s'.online == Some(false) && fault == Some(SystemOffline)
  {
  }

  /** A pool set point changed while the system has a spa: the new value goes in temp2. */
  lemma PoolTemperatureWithSpa(t: Table, pool: Record, unit: Value, degrees: int)
    requires "pool_set_point" in t && t["pool_set_point"] == Device(Thermostat, pool)
    requires "spa_set_point" in t
    requires "name" in pool && pool["name"] == Str("pool_set_point")
    requires InRange(unit, degrees)
    ensures PlanOf(t["pool_set_point"], SetTemperature(degrees), t, unit) == Ok(Some(SetTemps([("temp2", Decimal(degrees))])))
  {
    PoolSlot(pool, t);
    ThermostatSetsItsSlot(pool, t, unit, |t|, degrees);
  }

  /**
   * The set_temps request that change sends: temp2 carries the pool's new
   * value and temp1 the spa's current target.
   */
  lemma PoolTempsKeepSpa(t: Table, pool: Record, spa: Record, degrees: int)
    requires "pool_set_point" in t && t["pool_set_point"] == Device(Thermostat, pool) && "state" in pool
    requires "spa_set_point" in t && t["spa_set_point"] == Device(Thermostat, spa) && "state" in spa
    ensures var req := RequestOf(SetTemps([("temp2", Decimal(degrees))]), t);
      && req.Ok? && req.value.Some? && req.value.value.command == "set_temps"
      && Lookup(req.value.value.params, "temp1") == Some(spa["state"])
      && Lookup(req.value.value.params, "temp2") == Some(Decimal(degrees))
  {
    var temps := [("temp2", Decimal(degrees))];
    var spaTarget := TargetOf(t, "spa_set_point");
    var poolTarget := TargetOf(t, "pool_set_point");
    assert spaTarget == Ok(spa["state"]) by {
      assert TargetTemperature(t["spa_set_point"], t) == Field(spa, "state");
    }
    assert poolTarget.Ok? by {
      assert TargetTemperature(t["pool_set_point"], t) == Field(pool, "state");
    }
    assert GetParam(temps, "temp1", spaTarget.value) == spa["state"] by {
      assert Lookup(temps, "temp1").None?;
    }
    assert GetParam(temps, "temp2", poolTarget.value) == Decimal(degrees) by {
      assert Lookup(temps, "temp2") == Some(Decimal(degrees));
    }
    TempsRequest(t, temps);
  }

  /** set_temps sends its built arguments under the set_temps command. */
  lemma TempsRequest(t: Table, temps: Params)
    requires TempArgs(t, temps).Ok?
    ensures RequestOf(SetTemps(temps), t) == Ok(Some(Request("set_temps", TempArgs(t, temps).value)))
  {
  }

  /** The batch a present swc_info entry leaves: its fields and its name, not wrapped as {name, state}. */
  lemma PresentChlorinatorEntry(fields: seq<(string, Value)>)
    requires Truthy(Get(ToRecord(fields), "isswcPresent", Bool(false)))
    ensures var entry := Object([("swc_info", Object(fields))]);
      Fold(HomeStep, [], [entry]) == Ok([("swc_info", ToRecord(fields)["name" := Str("swc_info")])])
  {
    var entry := Object([("swc_info", Object(fields))]);
    var rec := ToRecord(fields)["name" := Str("swc_info")];
    assert FirstEntry(entry) == Ok(("swc_info", Object(fields)));
    assert HomeStep([], entry) == Ok(Put([], "swc_info", rec));
    assert Put([], "swc_info", rec) == [("swc_info", rec)];
    assert [entry][..0] == [];
  }

  /** A chlorinator record without a state or zoneId field makes the classifier raise KeyError('state'), and the reconciler lets it escape. */
  lemma PresentChlorinatorFault(t: Table, fields: seq<(string, Value)>)
    requires "swc_info" !in t
    requires Lookup(fields, "state").None? && Lookup(fields, "zoneId").None?
    ensures Reconcile(t, [("swc_info", ToRecord(fields)["name" := Str("swc_info")])]) == Outcome(t, Some(KeyError(Str("state"))))
  {
    var rec := ToRecord(fields)["name" := Str("swc_info")];
    assert "state" !in rec && "zoneId" !in rec;
    ClassifyReadsState(rec);
    assert [("swc_info", rec)][..0] == [];
    assert Absorb(t, "swc_info", rec) == Outcome(t, Some(KeyError(Str("state"))));
  }

  /**
   * A home screen whose swc_info block says the chlorinator is present and
   * carries no state or zoneId field ends the refresh with
   * KeyError('state') from the classifier rather than skipping the record.
   */
  lemma PresentChlorinatorRaises(t: Table, unit: Value, status: Value, x1: Value, x2: Value, scale: Value,
                                 fields: seq<(string, Value)>)
    requires status != Str("Offline") && "swc_info" !in t
    requires Truthy(Get(ToRecord(fields), "isswcPresent", Bool(false)))
    requires Lookup(fields, "state").None? && Lookup(fields, "zoneId").None?
    ensures HomeParse(t, unit, Object([("home_screen", Array([Object([("status", status)]), x1, x2,
                                                              Object([("temp_scale", scale)]),
                                                              Object([("swc_info", Object(fields))])]))]))
         == Parsed(t, scale, Some(KeyError(Str("state"))))
  {
    var entry := Object([("swc_info", Object(fields))]);
    var screen := Array([Object([("status", status)]), x1, x2, Object([("temp_scale", scale)]), entry]);
    var body := Object([("home_screen", screen)]);
    ScreenHeader(status, x1, x2, scale, entry);
    var rec := ToRecord(fields)["name" := Str("swc_info")];
    assert Fold(HomeStep, [], Slice(screen, 4).value) == Ok([("swc_info", rec)]) by {
      assert Slice(screen, 4).value == [entry];
      PresentChlorinatorEntry(fields);
    }
    assert Reconcile(t, [("swc_info", rec)]) == Outcome(t, Some(KeyError(Str("state")))) by {
      PresentChlorinatorFault(t, fields);
    }
    HomeParseScreen(t, unit, body, screen, status, scale);
  }

  /** A home screen whose first entry holds the status and whose fourth holds the temperature scale. */
  lemma ScreenHeader(status: Value, x1: Value, x2: Value, scale: Value, entry: Value)
    ensures var screen := Array([Object([("status", status)]), x1, x2, Object([("temp_scale", scale)]), entry]);
      && Member(Object([("home_screen", screen)]), "home_screen") == Ok(screen)
      && Status(screen) == Ok(status) && TempScale(screen) == Ok(scale)
  {
    var screen := Array([Object([("status", status)]), x1, x2, Object([("temp_scale", scale)]), entry]);
    assert Item(screen, 0) == Ok(Object([("status", status)]));
    assert Item(screen, 3) == Ok(Object([("temp_scale", scale)]));
  }

  /** Past an online status and a temperature scale, the home parser is the flattening fold and then the merge. */
  lemma HomeParseScreen(t: Table, unit: Value, body: Value, screen: Value, status: Value, scale: Value)
    requires Member(body, "home_screen") == Ok(screen) && Status(screen) == Ok(status) && status != Str("Offline")
    requires TempScale(screen) == Ok(scale)
    ensures var flat := Fold(HomeStep, [], Slice(screen, 4).value);
      HomeParse(t, unit, body) ==
        if flat.Err? then Parsed(t, scale, Some(flat.error))
        else Parsed(Reconcile(t, flat.value).table, scale, Reconcile(t, flat.value).fault)
  {
  }

  // ---------------------------------------------------------------------
  // The parsers' flattening loops

  /** The loop over icl_custom_color_info, filling the parser's local dict. */
  method FlattenColorInfos(b: Batch, infos: seq<Value>) returns (r: Result<Batch, Fault>)
    ensures r == Fold(ColorInfoStep, b, infos)
  {
    var acc := b;
    var i := 0;
    while i < |infos|
      invariant 0 <= i <= |infos|
      invariant Fold(ColorInfoStep, b, infos[..i]) == Ok(acc)
    {
      FoldNext(ColorInfoStep, b, infos, i);
      var info := infos[i];
      if info.Object? {
        var rec := ToRecord(info.fields);
        var key := ZoneKey(rec);
        if key.Err? {
          FoldStaysFailed(ColorInfoStep, b, infos, i + 1);
          return Err(key.error);
        }
        var name := key.value;
        var existing := Find(acc, name);
        if existing.Some? {
          acc := Put(acc, name, existing.value + rec);
        } else {
          rec := rec["name" := Str(name)];
          acc := Put(acc, name, rec);
        }
      }
      i := i + 1;
    }
    assert infos[..i] == infos;
    return Ok(acc);
  }

  /** The loop over home_screen[4:]. */
  method FlattenHome(entries: seq<Value>) returns (r: Result<Batch, Fault>)
    ensures r == Fold(HomeStep, [], entries)
  {
    var acc: Batch := [];
    var i := 0;
    while i < |entries|
      invariant 0 <= i <= |entries|
      invariant Fold(HomeStep, [], entries[..i]) == Ok(acc)
    {
      FoldNext(HomeStep, [], entries, i);
      var entry := FirstEntry(entries[i]);
      if entry.Err? {
        FoldStaysFailed(HomeStep, [], entries, i + 1);
        return Err(entry.error);
      }
      var name := entry.value.0;
      var state := entry.value.1;
      if name == "icl_custom_color_info" && state.Array? {
        var zones := FlattenColorInfos(acc, state.items);
        if zones.Err? {
          FoldStaysFailed(HomeStep, [], entries, i + 1);
          return zones;
        }
        acc := zones.value;
      } else if name == "heatpump_info" && state.Object? {
        var rec := ToRecord(state.fields);
        rec := rec["name" := Str(name)];
        acc := Put(acc, name, rec);
      } else if name == "swc_info" && state.Object? {
        var rec := ToRecord(state.fields);
        if Truthy(Get(rec, "isswcPresent", Bool(false))) {
          rec := rec["name" := Str(name)];
          acc := Put(acc, name, rec);
        }
      } else {
        acc := Put(acc, name, map["name" := Str(name), "state" := state]);
      }
      i := i + 1;
    }
    assert entries[..i] == entries;
    return Ok(acc);
  }

  /** The loop over one aux block's elements. */
  method FlattenAux(aux: string, ys: seq<Value>) returns (r: Result<Record, Fault>)
    ensures r == Fold(AuxUpdate, AuxAttrs(aux), ys)
  {
    var attrs := map["aux" := Str(RemoveAll(aux, "aux_")), "name" := Str(aux)];
    var i := 0;
    while i < |ys|
      invariant 0 <= i <= |ys|
      invariant Fold(AuxUpdate, AuxAttrs(aux), ys[..i]) == Ok(attrs)
    {
      FoldNext(AuxUpdate, AuxAttrs(aux), ys, i);
      var w := Writes(ys[i]);
      if w.Err? {
        FoldStaysFailed(AuxUpdate, AuxAttrs(aux), ys, i + 1);
        return Err(w.error);
      }
      attrs := attrs + ToRecord(w.value);
      i := i + 1;
    }
    assert ys[..i] == ys;
    return Ok(attrs);
  }

  /** The loop over devices_screen[3:]. */
  method FlattenDevices(entries: seq<Value>) returns (r: Result<Batch, Fault>)
    ensures r == Fold(DevicesStep, [], entries)
  {
    var acc: Batch := [];
    var i := 0;
    while i < |entries|
      invariant 0 <= i <= |entries|
      invariant Fold(DevicesStep, [], entries[..i]) == Ok(acc)
    {
      FoldNext(DevicesStep, [], entries, i);
      var entry := FirstEntry(entries[i]);
      if entry.Err? {
        FoldStaysFailed(DevicesStep, [], entries, i + 1);
        return Err(entry.error);
      }
      var aux := entry.value.0;
      if aux != "icl_info_list" {
        var ys := Iterate(entry.value.1);
        if ys.Err? {
          FoldStaysFailed(DevicesStep, [], entries, i + 1);
          return Err(ys.error);
        }
        var attrs := FlattenAux(aux, ys.value);
        if attrs.Err? {
          FoldStaysFailed(DevicesStep, [], entries, i + 1);
          return Err(attrs.error);
        }
        acc := Put(acc, aux, attrs.value);
      }
      i := i + 1;
    }
    assert entries[..i] == entries;
    return Ok(acc);
  }

  /** set_temps's argument building, with its counter. */
  method BuildTempArgs(t: Table, temps: Params) returns (r: Result<Params, Fault>)
    ensures r == TempArgs(t, temps)
  {
    var args: Params := [];
    var i := 1;
    TempKeys();
    if "spa_set_point" in t {
      var spa := TargetOf(t, "spa_set_point");
      if spa.Err? {
        return Err(spa.error);
      }
      args := Assign(args, "temp" + NatToStr(i), spa.value);
      i := i + 1;
    }
    assert if "spa_set_point" in t then i == 2 && args == [("temp1", TargetOf(t, "spa_set_point").value)]
      else i == 1 && args == [];
    var pool := TargetOf(t, "pool_set_point");
    if pool.Err? {
      return Err(pool.error);
    }
    args := Assign(args, "temp" + NatToStr(i), pool.value);
    assert args == DefaultTemps(t).value by {
      if "spa_set_point" in t {
        assert args == [("temp1", TargetOf(t, "spa_set_point").value), ("temp2", pool.value)];
      } else {
        assert args == [("temp1", pool.value)];
      }
    }
    args := Update(args, temps);
    return Ok(args);
  }

  /** The keys the counter builds: f"temp{i}" for i = 1, 2. */
  lemma TempKeys()
    ensures "temp" + NatToStr(1) == "temp1" && "temp" + NatToStr(2) == "temp2"
  {
  }

  /** Merging none of a record's fields changes nothing; merging all of them is merging the record. */
  lemma MergedEnds(dev: Device, rec: Record)
    ensures Merged(dev, Restrict(rec, {})) == dev
    ensures Merged(dev, Restrict(rec, rec.Keys)) == Merged(dev, rec)
  {
    assert Restrict(rec, {}) == map[];
    assert dev.data + map[] == dev.data;
    assert Restrict(rec, rec.Keys) == rec;
  }

  /** Merging one more field of a record writes that field over the fields merged so far. */
  lemma MergedStep(dev: Device, rec: Record, todo: set<string>, f: string)
    requires todo <= rec.Keys && f in todo
    ensures var before := Merged(dev, Restrict(rec, rec.Keys - todo));
      Merged(dev, Restrict(rec, rec.Keys - (todo - {f}))) == Device(before.kind, before.data[f := rec[f]])
  {
    var done := Restrict(rec, rec.Keys - todo);
    assert Restrict(rec, rec.Keys - (todo - {f})) == done[f := rec[f]];
    assert (dev.data + done)[f := rec[f]] == dev.data + done[f := rec[f]];
  }

  /** Restricted to the given fields. */
  function Restrict(rec: Record, fields: set<string>): (r: Record)
    ensures forall f :: f in r <==> f in rec && f in fields
  {
    map f | f in rec && f in fields :: rec[f]
  }

  // ---------------------------------------------------------------------
  // The system object

  class System {
    const serial: string
    var devices: Table
    var tempUnit: Value
    var lastRefresh: int
    var online: Option<bool>
    var log: seq<Request>

    function State(): Snapshot
      reads this
    {
      Snapshot(devices, tempUnit, online, lastRefresh, log)
    }

    /** A system with no devices yet, an empty unit, no refresh and nothing sent. */
    constructor(serial: string)
      ensures this.serial == serial
      ensures State() == Snapshot(map[], Str(""), None, 0, [])
    {
      this.serial := serial;
      devices := map[];
      tempUnit := Str("");
      lastRefresh := 0;
      online := None;
      log := [];
    }

    /** for dk, dv in rec.items(): self.devices[k].data[dk] = dv */
    method MergeFields(k: string, rec: Record)
      requires k in devices
      modifies this
      ensures State() == old(State()).(table := old(devices)[k := Merged(old(devices)[k], rec)])
    {
      var todo := rec.Keys;
      ghost var start := old(devices)[k];
      MergedEnds(start, rec);
      assert rec.Keys - todo == {};
      assert old(devices)[k := Merged(start, Restrict(rec, {}))] == old(devices);
      while todo != {}
        invariant todo <= rec.Keys
        invariant devices == old(devices)[k := Merged(start, Restrict(rec, rec.Keys - todo))]
        invariant State() == old(State()).(table := devices)
        decreases todo
      {
        var f :| f in todo;
        var dev := devices[k];
        MergedStep(start, rec, todo, f);
        devices := devices[k := Device(dev.kind, dev.data[f := rec[f]])];
        todo := todo - {f};
      }
      assert rec.Keys - todo == rec.Keys;
    }

    /** The second loop of both parsers: merge or classify each flattened record. */
    method ApplyBatch(b: Batch) returns (fault: Option<Fault>)
      modifies this
      ensures Outcome(devices, fault) == Reconcile(old(devices), b)
      ensures State() == old(State()).(table := devices)
    {
      var i := 0;
      while i < |b|
        invariant 0 <= i <= |b|
        invariant Reconcile(old(devices), b[..i]) == Outcome(devices, None)
        invariant State() == old(State()).(table := devices)
      {
        ReconcileNext(old(devices), b, i);
        var k := b[i].0;
        var v := b[i].1;
        if k in devices {
          MergeFields(k, v);
        } else {
          var kind := Classify(v);
          if kind.Ok? {
            devices := devices[k := Device(kind.value, v)];
          } else if kind.error != NotSupported {
            ReconcileStaysFaulted(old(devices), b, i + 1);
            return Some(kind.error);
          }
        }
        i := i + 1;
      }
      assert b[..i] == b;
      return None;
    }

    /** The loop over the root icl_info_list, writing into the device table as it goes. */
    method ApplyZoneInfos(infos: seq<Value>) returns (fault: Option<Fault>)
      modifies this
      ensures Outcome(devices, fault) == ZoneInfos(old(devices), infos)
      ensures State() == old(State()).(table := devices)
    {
      var i := 0;
      while i < |infos|
        invariant 0 <= i <= |infos|
        invariant ZoneInfos(old(devices), infos[..i]) == Outcome(devices, None)
        invariant State() == old(State()).(table := devices)
      {
        ZoneInfosNext(old(devices), infos, i);
        var info := infos[i];
        if info.Object? {
          var rec := ToRecord(info.fields);
          var key := ZoneKey(rec);
          if key.Err? {
            ZoneInfosStaysFaulted(old(devices), infos, i + 1);
            return Some(key.error);
          }
          var name := key.value;
          if name in devices {
            MergeFields(name, rec);
          } else {
            rec := rec["name" := Str(name)];
            var kind := Classify(rec);
            if kind.Ok? {
              devices := devices[name := Device(kind.value, rec)];
            } else if kind.error != NotSupported {
              ZoneInfosStaysFaulted(old(devices), infos, i + 1);
              return Some(kind.error);
            }
          }
        }
        i := i + 1;
      }
      assert infos[..i] == infos;
      return None;
    }

    /** _parse_home_response */
    method ParseHome(body: Value) returns (fault: Option<Fault>)
      modifies this
      ensures Parsed(devices, tempUnit, fault) == HomeParse(old(devices), old(tempUnit), body)
      ensures State() == old(State()).(table := devices, unit := tempUnit)
    {
      var screen := Member(body, "home_screen");
      if screen.Err? {
        return Some(screen.error);
      }
      var status := Status(screen.value);
      if status.Err? {
        return Some(status.error);
      }
      if status.value == Str("Offline") {
        return Some(SystemOffline);
      }
      var scale := TempScale(screen.value);
      if scale.Err? {
        return Some(scale.error);
      }
      tempUnit := scale.value;
      var entries := Slice(screen.value, 4).value;
      var b := FlattenHome(entries);
      if b.Err? {
        return Some(b.error);
      }
      fault := ApplyBatch(b.value);
    }

    /** _parse_devices_response */
    method ParseDevices(body: Value) returns (fault: Option<Fault>)
      modifies this
      ensures Outcome(devices, fault) == DevicesParse(old(devices), body)
      ensures State() == old(State()).(table := devices)
    {
      var screen := Member(body, "devices_screen");
      if screen.Err? {
        return Some(screen.error);
      }
      var status := Status(screen.value);
      if status.Err? {
        return Some(status.error);
      }
      if status.value == Str("Offline") {
        return Some(SystemOffline);
      }
      var list := Lookup(body.fields, "icl_info_list");
      if list.Some? && list.value.Array? {
        fault := ApplyZoneInfos(list.value.items);
        if fault.Some? {
          return;
        }
      }
      var entries := Slice(screen.value, 3).value;
      var b := FlattenDevices(entries);
      if b.Err? {
        return Some(b.error);
      }
      fault := ApplyBatch(b.value);
    }

    /** The reply handling of set_light and set_icl_light. */
    method ParseScreens(body: Value) returns (fault: Option<Fault>)
      modifies this
      ensures Parsed(devices, tempUnit, fault) == EitherParse(old(devices), old(tempUnit), body)
      ensures State() == old(State()).(table := devices, unit := tempUnit)
    {
      if !Truthy(body) {
        return None;
      }
      var home := In("home_screen", body);
      if home.Err? {
        return Some(home.error);
      }
      if home.value {
        fault := ParseHome(body);
      } else if In("devices_screen", body) == Ok(true) {
        fault := ParseDevices(body);
      } else {
        fault := None;
      }
    }

    /**
     * set_switch, set_aux, set_light, set_icl_light, set_temps and
     * set_heatpump: send the call's request, then parse the reply.
     */
    method Perform(call: Call, reply: Reply) returns (fault: Option<Fault>)
      modifies this
      ensures (State(), fault) == Performed(call, reply, old(State()))
    {
      var request: Request;
      match call {
        case SetSwitch(command) =>
          request := Request(command, []);
        case SetAux(aux) =>
          var command := AuxCommand(aux);
          if command.Err? {
            return Some(command.error);
          }
          request := Request(command.value, []);
        case SetLight(params) =>
          request := Request("set_light", params);
        case SetIclLight(params) =>
          var dispatch := IclCommand(params);
          if dispatch.Err? {
            return Some(dispatch.error);
          }
          if dispatch.value.None? {
            return None;
          }
          request := dispatch.value.value;
        case SetTemps(temps) =>
          var args := BuildTempArgs(devices, temps);
          if args.Err? {
            return Some(args.error);
          }
          request := Request("set_temps", args.value);
        case SetHeatpump(params) =>
          request := Request("set_heatpump", params);
      }
      log := log + [request];
      if reply.ServiceError? {
        return Some(ServiceFailure);
      }
      match ParserOf(call) {
        case HomeParser => fault := ParseHome(reply.body);
        case DevicesParser => fault := ParseDevices(reply.body);
        case EitherParser => fault := ParseScreens(reply.body);
      }
    }

    /** An action on the device under key: its plan, then the call it makes with the given reply. */
    method Operate(key: string, op: Op, reply: Reply) returns (fault: Option<Fault>)
      requires key in devices
      modifies this
      ensures (State(), fault) == Operated(old(devices)[key], op, reply, old(State()))
    {
      var plan := PlanOf(devices[key], op, devices, tempUnit);
      if plan.Err? {
        return Some(plan.error);
      }
      if plan.value.None? {
        return None;
      }
      fault := Perform(plan.value.value, reply);
    }

    /** update: skipped within minSecs of the last refresh, otherwise both screens fetched and parsed. */
    method Update(now: int, minSecs: int, home: Reply, devs: Reply, finishedAt: int) returns (fault: Option<Fault>)
      modifies this
      ensures now - old(lastRefresh) < minSecs ==> State() == old(State()) && fault.None?
      ensures now - old(lastRefresh) >= minSecs ==> (State(), fault) == Refreshed(home, devs, finishedAt, old(State()))
    {
      if now - lastRefresh < minSecs {
        return None;
      }
      log := log + [Request("get_home", [])];
      if home.ServiceError? {
        online := None;
        return Some(ServiceFailure);
      }
      log := log + [Request("get_devices", [])];
      if devs.ServiceError? {
        online := None;
        return Some(ServiceFailure);
      }
      fault := ParseHome(home.body);
      if fault.None? {
        fault := ParseDevices(devs.body);
      }
      if fault == Some(SystemOffline) {
        online := Some(false);
      } else if fault.None? {
        online := Some(true);
        lastRefresh := finishedAt;
      }
    }
  }
}
