/**
 * `ddi_data_dict`: the flat view `DDIModel.read` builds from the decoded
 * blocks, keyed by phoneme text, that the repacker and the extractor consume.
 *   `vqm`  the growl samples in decoder order (only when the index has a VQM block)
 *   `sta`  phoneme -> the samples of the stationary unit with that phoneme
 *   `art`  "a u" or "a b u" -> the samples of articulation unit `u` of block
 *          `a`, or of unit `u` of block `b` nested one level inside `a`
 * Both maps come out with their keys in ascending code-point order.
 *
 * Each dictionary is described by a fold over the decoded maps (`PutStaus`,
 * `PutUnits`, `PutSubBlocks`, `PutBlocks`); the `Build*` methods are the
 * decoder's `for` loops, proved to compute those folds.
 */
module DdiDict {
  import opened Wrappers
  import opened Refs
  import opened Dict
  import opened Text
  import opened DdiFormat

  /**
   * One sample as the flat view lists it: the sound reference, the second
   * sound offset (`snd_start`, articulations only), the epr entries and the
   * first pitch field.
   */
  datatype Sample = Sample(snd: SndRef, sndStart: Option<SndRef>, epr: seq<Ref>, pitch: F32)

  datatype DataDict = DataDict(vqm: Option<seq<Sample>>, sta: seq<(string, seq<Sample>)>, art: seq<(string, seq<Sample>)>)

  function StaSample(s: Stap): Sample { Sample(s.snd, None, s.epr, s.floats.pitch1) }

  function VqmSample(v: Vqmp): Sample { Sample(v.snd, None, v.epr, v.floats.pitch1) }

  function ArtSample(a: Artp): Sample { Sample(a.snd, Some(a.sndStart), a.epr, a.floats.pitch1) }

  /** `[f(v) for v in d.values()]`. */
  function MapValues<K, V, W>(d: seq<(K, V)>, f: V -> W): seq<W> {
    seq(|d|, k requires 0 <= k < |d| => f(d[k].1))
  }

  /** A `for` loop appending one sample per dictionary value, in dictionary order. */
  method CollectSamples<K, V>(d: seq<(K, V)>, f: V -> Sample) returns (out: seq<Sample>)
    ensures |out| == |d|
    ensures forall k :: 0 <= k < |d| ==> out[k] == f(d[k].1)
  {
    out := [];
    var i := 0;
    while i < |d|
      invariant i <= |d| && |out| == i
      invariant forall k :: 0 <= k < i ==> out[k] == f(d[k].1)
    {
      out := out + [f(d[i].1)];
      i := i + 1;
    }
  }

  // ---------------------------------------------------------------- sta

  /** `sta_dict[stau['phoneme']] = [...]` for each unit in turn: a repeated phoneme keeps its place and takes the later list. */
  function PutStaus(d: seq<(string, seq<Sample>)>, staus: seq<(nat, Stau)>): (r: seq<(string, seq<Sample>)>)
    requires KeysDistinct(d)
    ensures KeysDistinct(r)
    decreases |staus|
  {
    if |staus| == 0 then d
    else
      var u := staus[0].1;
      PutDistinct(d, u.phoneme, MapValues(u.staps, StaSample));
      PutStaus(Put(d, u.phoneme, MapValues(u.staps, StaSample)), staus[1..])
  }

  /** `ddi_data_dict['sta']`: the phoneme map with its keys sorted. */
  function StaDict(sta: seq<(nat, Stau)>): (r: seq<(string, seq<Sample>)>)
    ensures SortedBy(r, LexLess)
  {
    StringLessIsStrictTotal();
    SortByKey(PutStaus([], sta), LexLess)
  }

  /** A phoneme carried by some stationary unit. */
  predicate StaPhoneme(sta: seq<(nat, Stau)>, k: string) {
    exists e :: e in sta && e.1.phoneme == k
  }

  /** An item the phoneme map may hold: some unit's phoneme with that unit's samples. */
  predicate StaItem(sta: seq<(nat, Stau)>, item: (string, seq<Sample>)) {
    exists e :: e in sta && item == (e.1.phoneme, MapValues(e.1.staps, StaSample))
  }

  lemma {:induction false} PutStausKeys(d: seq<(string, seq<Sample>)>, staus: seq<(nat, Stau)>, k: string)
    requires KeysDistinct(d)
    ensures HasKey(PutStaus(d, staus), k) <==> HasKey(d, k) || StaPhoneme(staus, k)
    decreases |staus|
  {
    if |staus| > 0 {
      var u := staus[0].1;
      var d' := Put(d, u.phoneme, MapValues(u.staps, StaSample));
      PutDistinct(d, u.phoneme, MapValues(u.staps, StaSample));
      PutStausKeys(d', staus[1..], k);
      PutKeys(d, u.phoneme, MapValues(u.staps, StaSample), k);
      assert staus == [staus[0]] + staus[1..];
      assert StaPhoneme(staus, k) <==> u.phoneme == k || StaPhoneme(staus[1..], k);
    }
  }

  lemma {:induction false} PutStausItems(d: seq<(string, seq<Sample>)>, staus: seq<(nat, Stau)>)
    requires KeysDistinct(d)
    ensures forall item :: item in PutStaus(d, staus) ==> item in d || StaItem(staus, item)
    decreases |staus|
  {
    if |staus| > 0 {
      var u := staus[0].1;
      var d' := Put(d, u.phoneme, MapValues(u.staps, StaSample));
      PutDistinct(d, u.phoneme, MapValues(u.staps, StaSample));
      PutStausItems(d', staus[1..]);
      PutMembers(d, u.phoneme, MapValues(u.staps, StaSample));
      assert staus == [staus[0]] + staus[1..];
      forall item | item in PutStaus(d, staus)
        ensures item in d || StaItem(staus, item)
      {
        if StaItem(staus[1..], item) {
          var e :| e in staus[1..] && item == (e.1.phoneme, MapValues(e.1.staps, StaSample));
          assert e in staus;
        } else if item !in d {
          assert item == (u.phoneme, MapValues(u.staps, StaSample));
          assert staus[0] in staus;
        }
      }
    }
  }

  /**
   * The keys of `ddi_data_dict['sta']` are exactly the phonemes of the
   * stationary units, and each key maps to the samples of a unit with that
   * phoneme, in the unit's index order.
   */
  lemma StaDictKeys(sta: seq<(nat, Stau)>)
    ensures forall k :: HasKey(StaDict(sta), k) <==> StaPhoneme(sta, k)
    ensures forall item :: item in StaDict(sta) ==> StaItem(sta, item)
  {
    StringLessIsStrictTotal();
    forall k
      ensures HasKey(StaDict(sta), k) <==> StaPhoneme(sta, k)
    {
      PutStausKeys([], sta, k);
      SortByKeyHasKey(PutStaus([], sta), LexLess, k);
    }
    PutStausItems([], sta);
    SortByKeyMembers(PutStaus([], sta), LexLess);
  }

  /** The loop over the stationary units, then the sort by key. */
  method BuildStaDict(sta: seq<(nat, Stau)>) returns (r: seq<(string, seq<Sample>)>)
    ensures r == StaDict(sta)
  {
    var m: seq<(string, seq<Sample>)> := [];
    var i := 0;
    while i < |sta|
      invariant i <= |sta| && KeysDistinct(m)
      invariant PutStaus(m, sta[i..]) == PutStaus([], sta)
    {
      var stau := sta[i].1;
      var samples := CollectSamples(stau.staps, StaSample);
      assert samples == MapValues(stau.staps, StaSample);
      assert sta[i..][1..] == sta[i + 1..];
      PutDistinct(m, stau.phoneme, samples);
      m := Put(m, stau.phoneme, samples);
      i := i + 1;
    }
    assert sta[i..] == [];
    StringLessIsStrictTotal();
    r := SortByKey(m, LexLess);
  }

  // ---------------------------------------------------------------- art

  /** `art_dict[prefix + ' ' + artu['phoneme']] = [...]` for each unit in turn. */
  function PutUnits(d: seq<(string, seq<Sample>)>, prefix: string, artus: seq<(nat, Artu)>): (r: seq<(string, seq<Sample>)>)
    requires KeysDistinct(d)
    ensures KeysDistinct(r)
    decreases |artus|
  {
    if |artus| == 0 then d
    else
      var u := artus[0].1;
      PutDistinct(d, prefix + " " + u.phoneme, MapValues(u.artps, ArtSample));
      PutUnits(Put(d, prefix + " " + u.phoneme, MapValues(u.artps, ArtSample)), prefix, artus[1..])
  }

  /** The units of every nested block, keyed by the outer phoneme, the nested phoneme and the unit phoneme. */
  function PutSubBlocks(d: seq<(string, seq<Sample>)>, prefix: string, subs: seq<(nat, Art)>): (r: seq<(string, seq<Sample>)>)
    requires KeysDistinct(d)
    ensures KeysDistinct(r)
    decreases |subs|
  {
    if |subs| == 0 then d
    else
      var b := subs[0].1;
      PutSubBlocks(PutUnits(d, prefix + " " + b.phoneme, b.artus), prefix, subs[1..])
  }

  /** The loop over the articulation blocks: each block's own units, then those one level down. */
  function PutBlocks(d: seq<(string, seq<Sample>)>, arts: seq<(nat, Art)>): (r: seq<(string, seq<Sample>)>)
    requires KeysDistinct(d)
    ensures KeysDistinct(r)
    decreases |arts|
  {
    if |arts| == 0 then d
    else
      var a := arts[0].1;
      PutBlocks(PutSubBlocks(PutUnits(d, a.phoneme, a.artus), a.phoneme, a.arts), arts[1..])
  }

  /** `ddi_data_dict['art']`: the articulation map with its keys sorted. */
  function ArtDict(arts: seq<(nat, Art)>): (r: seq<(string, seq<Sample>)>)
    ensures SortedBy(r, LexLess)
  {
    StringLessIsStrictTotal();
    SortByKey(PutBlocks([], arts), LexLess)
  }

  /** `prefix` and the phoneme of one of the units, joined by a space. */
  predicate UnitKey(prefix: string, artus: seq<(nat, Artu)>, k: string) {
    exists u :: u in artus && k == prefix + " " + u.1.phoneme
  }

  /** Such a key with that unit's samples. */
  predicate UnitItem(prefix: string, artus: seq<(nat, Artu)>, item: (string, seq<Sample>)) {
    exists u :: u in artus && item == (prefix + " " + u.1.phoneme, MapValues(u.1.artps, ArtSample))
  }

  /** Two phonemes: a block's and one of its units'. */
  predicate PairKey(arts: seq<(nat, Art)>, k: string) {
    exists a :: a in arts && UnitKey(a.1.phoneme, a.1.artus, k)
  }

  /** Three phonemes: a block's, a nested block's, and a unit's of the nested block. */
  predicate TripleKey(arts: seq<(nat, Art)>, k: string) {
    exists a, b :: a in arts && b in a.1.arts && UnitKey(a.1.phoneme + " " + b.1.phoneme, b.1.artus, k)
  }

  predicate ArtItem(arts: seq<(nat, Art)>, item: (string, seq<Sample>)) {
    || (exists a :: a in arts && UnitItem(a.1.phoneme, a.1.artus, item))
    || (exists a, b :: a in arts && b in a.1.arts && UnitItem(a.1.phoneme + " " + b.1.phoneme, b.1.artus, item))
  }

  lemma {:induction false} PutUnitsKeys(d: seq<(string, seq<Sample>)>, prefix: string, artus: seq<(nat, Artu)>, k: string)
    requires KeysDistinct(d)
    ensures HasKey(PutUnits(d, prefix, artus), k) <==> HasKey(d, k) || UnitKey(prefix, artus, k)
    decreases |artus|
  {
    if |artus| > 0 {
      var u := artus[0].1;
      var v := MapValues(u.artps, ArtSample);
      PutDistinct(d, prefix + " " + u.phoneme, v);
      PutUnitsKeys(Put(d, prefix + " " + u.phoneme, v), prefix, artus[1..], k);
      PutKeys(d, prefix + " " + u.phoneme, v, k);
      assert artus == [artus[0]] + artus[1..];
      assert UnitKey(prefix, artus, k) <==> k == prefix + " " + u.phoneme || UnitKey(prefix, artus[1..], k);
    }
  }

  lemma {:induction false} PutUnitsItems(d: seq<(string, seq<Sample>)>, prefix: string, artus: seq<(nat, Artu)>)
    requires KeysDistinct(d)
    ensures forall item :: item in PutUnits(d, prefix, artus) ==> item in d || UnitItem(prefix, artus, item)
    decreases |artus|
  {
    if |artus| > 0 {
      var u := artus[0].1;
      var v := MapValues(u.artps, ArtSample);
      PutDistinct(d, prefix + " " + u.phoneme, v);
      PutUnitsItems(Put(d, prefix + " " + u.phoneme, v), prefix, artus[1..]);
      PutMembers(d, prefix + " " + u.phoneme, v);
      assert artus == [artus[0]] + artus[1..];
      forall item | item in PutUnits(d, prefix, artus)
        ensures item in d || UnitItem(prefix, artus, item)
      {
        if UnitItem(prefix, artus[1..], item) {
          var w :| w in artus[1..] && item == (prefix + " " + w.1.phoneme, MapValues(w.1.artps, ArtSample));
          assert w in artus;
        } else if item !in d {
          assert artus[0] in artus;
        }
      }
    }
  }

  lemma {:induction false} PutSubBlocksKeys(d: seq<(string, seq<Sample>)>, prefix: string, subs: seq<(nat, Art)>, k: string)
    requires KeysDistinct(d)
    ensures HasKey(PutSubBlocks(d, prefix, subs), k)
            <==> HasKey(d, k) || exists b :: b in subs && UnitKey(prefix + " " + b.1.phoneme, b.1.artus, k)
    decreases |subs|
  {
    if |subs| > 0 {
      var b0 := subs[0].1;
      var d' := PutUnits(d, prefix + " " + b0.phoneme, b0.artus);
      PutUnitsKeys(d, prefix + " " + b0.phoneme, b0.artus, k);
      PutSubBlocksKeys(d', prefix, subs[1..], k);
      assert subs == [subs[0]] + subs[1..];
      if exists b :: b in subs && UnitKey(prefix + " " + b.1.phoneme, b.1.artus, k) {
        var b :| b in subs && UnitKey(prefix + " " + b.1.phoneme, b.1.artus, k);
        if b != subs[0] {
          assert b in subs[1..];
        }
      }
      if UnitKey(prefix + " " + b0.phoneme, b0.artus, k) {
        assert subs[0] in subs;
      }
    }
  }

  lemma {:induction false} PutSubBlocksItems(d: seq<(string, seq<Sample>)>, prefix: string, subs: seq<(nat, Art)>)
    requires KeysDistinct(d)
    ensures forall item :: item in PutSubBlocks(d, prefix, subs)
              ==> item in d || exists b :: b in subs && UnitItem(prefix + " " + b.1.phoneme, b.1.artus, item)
    decreases |subs|
  {
    if |subs| > 0 {
      var b0 := subs[0].1;
      var d' := PutUnits(d, prefix + " " + b0.phoneme, b0.artus);
      PutUnitsItems(d, prefix + " " + b0.phoneme, b0.artus);
      PutSubBlocksItems(d', prefix, subs[1..]);
      assert subs == [subs[0]] + subs[1..];
      forall item | item in PutSubBlocks(d, prefix, subs)
        ensures item in d || exists b :: b in subs && UnitItem(prefix + " " + b.1.phoneme, b.1.artus, item)
      {
        if item !in d' {
          var b :| b in subs[1..] && UnitItem(prefix + " " + b.1.phoneme, b.1.artus, item);
          assert b in subs;
        } else if item !in d {
          assert subs[0] in subs;
        }
      }
    }
  }

  lemma {:induction false} PutBlocksKeys(d: seq<(string, seq<Sample>)>, arts: seq<(nat, Art)>, k: string)
    requires KeysDistinct(d)
    ensures HasKey(PutBlocks(d, arts), k) <==> HasKey(d, k) || PairKey(arts, k) || TripleKey(arts, k)
    decreases |arts|
  {
    if |arts| > 0 {
      var a0 := arts[0].1;
      var d1 := PutUnits(d, a0.phoneme, a0.artus);
      var d2 := PutSubBlocks(d1, a0.phoneme, a0.arts);
      PutUnitsKeys(d, a0.phoneme, a0.artus, k);
      PutSubBlocksKeys(d1, a0.phoneme, a0.arts, k);
      PutBlocksKeys(d2, arts[1..], k);
      PairKeyCons(arts, k);
      TripleKeyCons(arts, k);
    }
  }

  lemma PairKeyCons(arts: seq<(nat, Art)>, k: string)
    requires |arts| > 0
    ensures PairKey(arts, k) <==> UnitKey(arts[0].1.phoneme, arts[0].1.artus, k) || PairKey(arts[1..], k)
  {
    assert arts[0] in arts;
    if PairKey(arts, k) {
      var a :| a in arts && UnitKey(a.1.phoneme, a.1.artus, k);
      if a != arts[0] {
        assert a in arts[1..];
      }
    }
    if PairKey(arts[1..], k) {
      var a :| a in arts[1..] && UnitKey(a.1.phoneme, a.1.artus, k);
      assert a in arts;
    }
  }

  lemma TripleKeyCons(arts: seq<(nat, Art)>, k: string)
    requires |arts| > 0
    ensures TripleKey(arts, k)
            <==> (exists b :: b in arts[0].1.arts && UnitKey(arts[0].1.phoneme + " " + b.1.phoneme, b.1.artus, k))
                 || TripleKey(arts[1..], k)
  {
    assert arts[0] in arts;
    if TripleKey(arts, k) {
      var a, b :| a in arts && b in a.1.arts && UnitKey(a.1.phoneme + " " + b.1.phoneme, b.1.artus, k);
      if a != arts[0] {
        assert a in arts[1..];
      }
    }
    if TripleKey(arts[1..], k) {
      var a, b :| a in arts[1..] && b in a.1.arts && UnitKey(a.1.phoneme + " " + b.1.phoneme, b.1.artus, k);
      assert a in arts;
    }
  }

  lemma {:induction false} PutBlocksItems(d: seq<(string, seq<Sample>)>, arts: seq<(nat, Art)>)
    requires KeysDistinct(d)
    ensures forall item :: item in PutBlocks(d, arts) ==> item in d || ArtItem(arts, item)
    decreases |arts|
  {
    if |arts| > 0 {
      var a0 := arts[0].1;
      var d1 := PutUnits(d, a0.phoneme, a0.artus);
      var d2 := PutSubBlocks(d1, a0.phoneme, a0.arts);
      PutUnitsItems(d, a0.phoneme, a0.artus);
      PutSubBlocksItems(d1, a0.phoneme, a0.arts);
      PutBlocksItems(d2, arts[1..]);
      assert arts == [arts[0]] + arts[1..];
      assert arts[0] in arts;
      forall item | item in PutBlocks(d, arts)
        ensures item in d || ArtItem(arts, item)
      {
        if item !in d2 {
          if exists a :: a in arts[1..] && UnitItem(a.1.phoneme, a.1.artus, item) {
            var a :| a in arts[1..] && UnitItem(a.1.phoneme, a.1.artus, item);
            assert a in arts;
          } else {
            var a, b :| a in arts[1..] && b in a.1.arts && UnitItem(a.1.phoneme + " " + b.1.phoneme, b.1.artus, item);
            assert a in arts;
          }
        } else if item !in d1 {
          var b :| b in a0.arts && UnitItem(a0.phoneme + " " + b.1.phoneme, b.1.artus, item);
        }
      }
    }
  }

  /**
   * The keys of `ddi_data_dict['art']` are exactly the two-phoneme names
   * "block unit" and the three-phoneme names "block nested-block unit".
   */
  lemma ArtDictKeys(arts: seq<(nat, Art)>)
    ensures forall k :: HasKey(ArtDict(arts), k) <==> PairKey(arts, k) || TripleKey(arts, k)
  {
    StringLessIsStrictTotal();
    forall k
      ensures HasKey(ArtDict(arts), k) <==> PairKey(arts, k) || TripleKey(arts, k)
    {
      PutBlocksKeys([], arts, k);
      SortByKeyHasKey(PutBlocks([], arts), LexLess, k);
    }
  }

  /** Each item of `ddi_data_dict['art']` is a name with the samples of the unit it names. */
  lemma ArtDictItems(arts: seq<(nat, Art)>)
    ensures forall item :: item in ArtDict(arts) ==> ArtItem(arts, item)
  {
    StringLessIsStrictTotal();
    var m := PutBlocks([], arts);
    PutBlocksItems([], arts);
    var r := SortByKey(m, LexLess);
    assert ArtDict(arts) == r;
    forall item | item in r
      ensures ArtItem(arts, item)
    {
      SortedItemIn(m, item);
    }
  }

  /** The samples of one articulation unit all carry their `snd_start`. */
  lemma UnitSamplesHaveStart(u: Artu, s: Sample)
    requires s in MapValues(u.artps, ArtSample)
    ensures s.sndStart.Some?
  {
    var k :| 0 <= k < |u.artps| && MapValues(u.artps, ArtSample)[k] == s;
    assert s == ArtSample(u.artps[k].1);
  }

  /** Every sample of `ddi_data_dict['art']` has its `snd_start`. */
  lemma ArtSamplesHaveStart(arts: seq<(nat, Art)>, item: (string, seq<Sample>), s: Sample)
    requires item in ArtDict(arts) && s in item.1
    ensures s.sndStart.Some?
  {
    ArtDictItems(arts);
    var u: (nat, Artu);
    if exists a :: a in arts && UnitItem(a.1.phoneme, a.1.artus, item) {
      var a :| a in arts && UnitItem(a.1.phoneme, a.1.artus, item);
      u :| u in a.1.artus && item == (a.1.phoneme + " " + u.1.phoneme, MapValues(u.1.artps, ArtSample));
    } else {
      var a, b :| a in arts && b in a.1.arts && UnitItem(a.1.phoneme + " " + b.1.phoneme, b.1.artus, item);
      u :| u in b.1.artus && item == (a.1.phoneme + " " + b.1.phoneme + " " + u.1.phoneme, MapValues(u.1.artps, ArtSample));
    }
    UnitSamplesHaveStart(u.1, s);
  }

  lemma SortedItemIn(m: seq<(string, seq<Sample>)>, item: (string, seq<Sample>))
    requires StrictTotalOrder(LexLess) && KeysDistinct(m) && item in SortByKey(m, LexLess)
    ensures item in m
  {
    SortByKeyMembers(m, LexLess);
  }

  /** The loop over one map of units: a key per unit, its samples collected in order. */
  method PutUnitsLoop(d: seq<(string, seq<Sample>)>, prefix: string, artus: seq<(nat, Artu)>) returns (r: seq<(string, seq<Sample>)>)
    requires KeysDistinct(d)
    ensures r == PutUnits(d, prefix, artus)
  {
    r := d;
    var i := 0;
    while i < |artus|
      invariant i <= |artus| && KeysDistinct(r)
      invariant PutUnits(r, prefix, artus[i..]) == PutUnits(d, prefix, artus)
    {
      var artu := artus[i].1;
      var key := prefix + " " + artu.phoneme;
      var samples := CollectSamples(artu.artps, ArtSample);
      assert samples == MapValues(artu.artps, ArtSample);
      assert artus[i..][1..] == artus[i + 1..];
      PutDistinct(r, key, samples);
      r := Put(r, key, samples);
      i := i + 1;
    }
    assert artus[i..] == [];
  }

  /** The nested loop over the blocks one level down. */
  method PutSubBlocksLoop(d: seq<(string, seq<Sample>)>, prefix: string, subs: seq<(nat, Art)>) returns (r: seq<(string, seq<Sample>)>)
    requires KeysDistinct(d)
    ensures r == PutSubBlocks(d, prefix, subs)
  {
    r := d;
    var j := 0;
    while j < |subs|
      invariant j <= |subs| && KeysDistinct(r)
      invariant PutSubBlocks(r, prefix, subs[j..]) == PutSubBlocks(d, prefix, subs)
    {
      var sub := subs[j].1;
      assert subs[j..][1..] == subs[j + 1..];
      r := PutUnitsLoop(r, prefix + " " + sub.phoneme, sub.artus);
      j := j + 1;
    }
    assert subs[j..] == [];
  }

  /** The loop over the articulation blocks, then the sort by key. */
  method BuildArtDict(arts: seq<(nat, Art)>) returns (r: seq<(string, seq<Sample>)>)
    ensures r == ArtDict(arts)
  {
    var m: seq<(string, seq<Sample>)> := [];
    var i := 0;
    while i < |arts|
      invariant i <= |arts| && KeysDistinct(m)
      invariant PutBlocks(m, arts[i..]) == PutBlocks([], arts)
    {
      var art := arts[i].1;
      assert arts[i..][1..] == arts[i + 1..];
      m := PutUnitsLoop(m, art.phoneme, art.artus);
      m := PutSubBlocksLoop(m, art.phoneme, art.arts);
      i := i + 1;
    }
    assert arts[i..] == [];
    StringLessIsStrictTotal();
    r := SortByKey(m, LexLess);
  }

  // ---------------------------------------------------------------- the whole view

  /** `ddi_data_dict` from the decoded blocks; the `vqm` list exists exactly when a VQM block was decoded. */
  function DataDictOf(sta: seq<(nat, Stau)>, art: seq<(nat, Art)>, vqm: Option<seq<(int, Vqmp)>>): (r: DataDict)
    ensures r.vqm.Some? <==> vqm.Some?
    ensures vqm.Some? ==> |r.vqm.value| == |vqm.value|
    ensures vqm.Some? ==> forall k :: 0 <= k < |vqm.value| ==> r.vqm.value[k] == VqmSample(vqm.value[k].1)
    ensures SortedBy(r.sta, LexLess) && SortedBy(r.art, LexLess)
  {
    DataDict(if vqm.Some? then Some(MapValues(vqm.value, VqmSample)) else None, StaDict(sta), ArtDict(art))
  }
}
