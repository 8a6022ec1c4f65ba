/**
 * The table of segments to record from (`recorded_segments`) and the marks of
 * the Poisson input segments (`input_segment_marks`): dicts from a segment key
 * to a marker, filled by assigning one fresh colour of a ramp per assignment.
 */
module Selection {
  import opened Common
  import opened Dicts
  import opened Naming
  import opened Colors
  import opened Cells

  /** The soma's key, always assigned first. */
  const Soma := "0"

  /** The key of a group's middle segment: `str(segments[int(len(segments) / 2)])`. */
  function MidpointKey(g: SegmentGroup): string
    requires |g.segments| > 0
  {
    NatToString(g.segments[|g.segments| / 2])
  }

  /** Position of the first group without segments (`|groups|` when there is none). */
  function FirstEmptyGroup(groups: seq<SegmentGroup>): (j: nat)
    ensures j <= |groups|
    ensures forall i :: 0 <= i < j ==> |groups[i].segments| > 0
    ensures j < |groups| ==> groups[j].segments == []
  {
    if groups == [] || groups[0].segments == [] then 0 else 1 + FirstEmptyGroup(groups[1..])
  }

  function MidpointKeys(groups: seq<SegmentGroup>): seq<string>
    requires forall i :: 0 <= i < |groups| ==> |groups[i].segments| > 0
  {
    seq(|groups|, i requires 0 <= i < |groups| => MidpointKey(groups[i]))
  }

  /** `str(s)` for each configured extra segment. */
  function ExtraKeys(extras: seq<nat>): seq<string>
  {
    seq(|extras|, i requires 0 <= i < |extras| => NatToString(extras[i]))
  }

  /**
   * The keys assigned by one new selection, in assignment order: the soma, the
   * midpoint of every sampled group up to the first group without segments
   * (where the lookup raises), and only if no group raised, every extra.
   */
  function AssignedKeys(sampled: seq<SegmentGroup>, extras: seq<nat>): seq<string>
  {
    var j := FirstEmptyGroup(sampled);
    [Soma] + MidpointKeys(sampled[..j]) + (if j == |sampled| then ExtraKeys(extras) else [])
  }

  /** `nsegs = 1 + len(sgs) + len(extra_segments_record)`: the size of the colour ramp. */
  function RampSize(sampled: seq<SegmentGroup>, extras: seq<nat>): nat
  {
    1 + |sampled| + |extras|
  }

  /** The table a new selection leaves, starting from `init`. */
  function NewTable(init: Dict<string, Marker>, sampled: seq<SegmentGroup>, extras: seq<nat>, size: int): Dict<string, Marker>
  {
    PutAll(init, Marks(AssignedKeys(sampled, extras), size, RampSize(sampled, extras)))
  }

  /**
   * The new-selection branch once the groups are sampled: assign the soma, then
   * each sampled group's midpoint, then each extra, each with the next colour of
   * a ramp of `RampSize` colours. A group without segments raises IndexError and
   * leaves the assignments made so far in place.
   */
  method RecordNewSelection(init: Dict<string, Marker>, sampled: seq<SegmentGroup>, extras: seq<nat>, size: int)
    returns (table: Dict<string, Marker>, r: Outcome)
    ensures table == NewTable(init, sampled, extras, size)
    ensures r == if FirstEmptyGroup(sampled) < |sampled| then Fail(SegmentIndexOutOfRange) else Pass
  {
    var nsegs := 1 + |sampled| + |extras|;
    var colors := new ColorIterator(nsegs);

    // always record from the soma
    var c := colors.Next();
    SomaStep(init, size, nsegs);
    table := init.Put(Soma, Marker(size, c));

    var i;
    table, i := AssignMidpoints(init, table, sampled, size, colors);
    if i < |sampled| {
      // segments[int(len(segments) / 2)] of a group without segments: IndexError
      NewTableStopped(init, sampled, extras, size, colors.points, table);
      return table, Fail(SegmentIndexOutOfRange);
    }
    assert sampled[..i] == sampled;
    table := AssignExtras(init, table, [Soma] + MidpointKeys(sampled), extras, size, colors);
    NewTableComplete(init, sampled, extras, size, colors.points, table);
    r := Pass;
  }

  lemma SomaStep(init: Dict<string, Marker>, size: int, points: nat)
    ensures PutAll(init, Marks([Soma], size, points)) == init.Put(Soma, Marker(size, RampColor(0, points)))
  {
    AssignStep(init, [], Soma, size, points);
    assert [] + [Soma] == [Soma];
  }

  /** A selection stopped by an empty group holds the soma and the midpoints before it. */
  lemma NewTableStopped(init: Dict<string, Marker>, sampled: seq<SegmentGroup>, extras: seq<nat>, size: int,
                        points: nat, table: Dict<string, Marker>)
    requires FirstEmptyGroup(sampled) < |sampled| && points == 1 + |sampled| + |extras|
    requires table == PutAll(init, Marks([Soma] + MidpointKeys(sampled[..FirstEmptyGroup(sampled)]), size, points))
    ensures table == NewTable(init, sampled, extras, size)
  {
    var j := FirstEmptyGroup(sampled);
    var keys := [Soma] + MidpointKeys(sampled[..j]);
    assert AssignedKeys(sampled, extras) == keys + [];
    assert keys + [] == keys;
  }

  /** A selection without empty groups holds the soma, every midpoint and every extra. */
  lemma NewTableComplete(init: Dict<string, Marker>, sampled: seq<SegmentGroup>, extras: seq<nat>, size: int,
                         points: nat, table: Dict<string, Marker>)
    requires FirstEmptyGroup(sampled) == |sampled| && points == 1 + |sampled| + |extras|
    requires table == PutAll(init, Marks([Soma] + MidpointKeys(sampled) + ExtraKeys(extras), size, points))
    ensures table == NewTable(init, sampled, extras, size)
  {
    AssignedKeysComplete(sampled, extras);
  }

  /**
   * The loop over the sampled groups, up to the first group without segments.
   * That group still takes its colour: the value of the assignment is evaluated
   * before the lookup of its middle segment raises.
   */
  method AssignMidpoints(init: Dict<string, Marker>, table0: Dict<string, Marker>, sampled: seq<SegmentGroup>,
                         size: int, colors: ColorIterator)
    returns (table: Dict<string, Marker>, i: nat)
    requires colors.drawn == 1 && 1 + |sampled| <= colors.points
    requires table0 == PutAll(init, Marks([Soma], size, colors.points))
    modifies colors
    ensures i == FirstEmptyGroup(sampled)
    ensures colors.drawn == 1 + i + (if i < |sampled| then 1 else 0)
    ensures table == PutAll(init, Marks([Soma] + MidpointKeys(sampled[..i]), size, colors.points))
  {
    table, i := table0, 0;
    assert sampled[..0] == [];
    while i < |sampled|
      invariant 0 <= i <= |sampled|
      invariant forall j :: 0 <= j < i ==> |sampled[j].segments| > 0
      invariant colors.drawn == 1 + i
      invariant table == PutAll(init, Marks([Soma] + MidpointKeys(sampled[..i]), size, colors.points))
    {
      var segments := sampled[i].segments;
      // the assigned value `list(next(colors))` is evaluated before the subscript that may raise
      var c := colors.Next();
      if |segments| == 0 {
        break;
      }
      var key := NatToString(segments[|segments| / 2]);
      MidpointStep(init, sampled, i, size, colors.points);
      table := table.Put(key, Marker(size, c));
      i := i + 1;
    }
    FirstEmptyGroupAt(sampled, i);
  }

  lemma MidpointStep(init: Dict<string, Marker>, sampled: seq<SegmentGroup>, i: nat, size: int, points: nat)
    requires i < |sampled| && forall j :: 0 <= j <= i ==> |sampled[j].segments| > 0
    ensures PutAll(init, Marks([Soma] + MidpointKeys(sampled[..i + 1]), size, points)) ==
            PutAll(init, Marks([Soma] + MidpointKeys(sampled[..i]), size, points)).Put(MidpointKey(sampled[i]), Marker(size, RampColor(1 + i, points)))
  {
    MidpointKeysSnoc(sampled, i);
    var keys := [Soma] + MidpointKeys(sampled[..i]);
    assert [Soma] + MidpointKeys(sampled[..i + 1]) == keys + [MidpointKey(sampled[i])];
    AssignStep(init, keys, MidpointKey(sampled[i]), size, points);
  }

  /** The loop over the configured extra segments. */
  method AssignExtras(init: Dict<string, Marker>, table0: Dict<string, Marker>, keys0: seq<string>, extras: seq<nat>,
                      size: int, colors: ColorIterator)
    returns (table: Dict<string, Marker>)
    requires colors.drawn == |keys0| && |keys0| + |extras| <= colors.points
    requires table0 == PutAll(init, Marks(keys0, size, colors.points))
    modifies colors
    ensures colors.drawn == |keys0| + |extras|
    ensures table == PutAll(init, Marks(keys0 + ExtraKeys(extras), size, colors.points))
  {
    table := table0;
    ghost var extraKeys := ExtraKeys(extras);
    var e := 0;
    var points := colors.points;
    assert keys0 + extraKeys[..0] == keys0;
    while e < |extras|
      invariant 0 <= e <= |extras|
      invariant colors.drawn == |keys0| + e
      invariant table == PutAll(init, Marks(keys0 + extraKeys[..e], size, points))
    {
      var key := NatToString(extras[e]);
      var c := colors.Next();
      PrefixStep(init, keys0, extraKeys, e, size, points);
      table := table.Put(key, Marker(size, c));
      e := e + 1;
    }
    assert extraKeys[..e] == extraKeys;
  }

  /** Assigning the next key of `more` with the next colour is one more `Put`. */
  lemma PrefixStep<K(!new)>(init: Dict<K, Marker>, keys0: seq<K>, more: seq<K>, e: nat, size: int, points: nat)
    requires e < |more|
    ensures PutAll(init, Marks(keys0 + more[..e + 1], size, points)) ==
            PutAll(init, Marks(keys0 + more[..e], size, points)).Put(more[e], Marker(size, RampColor(|keys0| + e, points)))
  {
    assert keys0 + more[..e + 1] == (keys0 + more[..e]) + [more[e]];
    AssignStep(init, keys0 + more[..e], more[e], size, points);
  }

  /** The first empty group is where a scan over non-empty groups stops. */
  lemma {:induction false} FirstEmptyGroupAt(groups: seq<SegmentGroup>, i: nat)
    requires i <= |groups| && forall j :: 0 <= j < i ==> |groups[j].segments| > 0
    requires i < |groups| ==> groups[i].segments == []
    ensures FirstEmptyGroup(groups) == i
  {
    if i > 0 {
      FirstEmptyGroupAt(groups[1..], i - 1);
    }
  }

  /** One more assignment with the next colour of the ramp is one more `Put`. */
  lemma AssignStep<K(!new)>(init: Dict<K, Marker>, keys: seq<K>, key: K, size: int, points: nat)
    ensures PutAll(init, Marks(keys + [key], size, points)) ==
            PutAll(init, Marks(keys, size, points)).Put(key, Marker(size, RampColor(|keys|, points)))
  {
    MarksSnoc(keys, key, size, points);
    PutAllSnoc(init, Marks(keys, size, points), key, Marker(size, RampColor(|keys|, points)));
  }

  lemma MidpointKeysSnoc(groups: seq<SegmentGroup>, i: nat)
    requires i < |groups| && forall j :: 0 <= j <= i ==> |groups[j].segments| > 0
    ensures MidpointKeys(groups[..i + 1]) == MidpointKeys(groups[..i]) + [MidpointKey(groups[i])]
  {
    var a, b := MidpointKeys(groups[..i + 1]), MidpointKeys(groups[..i]) + [MidpointKey(groups[i])];
    assert |a| == |b|;
    forall j | 0 <= j < |a| ensures a[j] == b[j] {
      assert groups[..i + 1][j] == groups[j];
    }
  }

  /** With no empty group, a selection assigns the soma, every midpoint and every extra. */
  lemma AssignedKeysComplete(sampled: seq<SegmentGroup>, extras: seq<nat>)
    requires FirstEmptyGroup(sampled) == |sampled|
    ensures AssignedKeys(sampled, extras) == [Soma] + MidpointKeys(sampled) + ExtraKeys(extras)
  {
    assert sampled[..|sampled|] == sampled;
  }

  // ---- what a new selection promises ----

  /**
   * A new selection makes at least one assignment (the soma) and never more
   * than the ramp has colours, and exactly that many when no sampled group is
   * empty.
   */
  lemma {:induction false} AssignedKeysCount(sampled: seq<SegmentGroup>, extras: seq<nat>)
    ensures 1 <= |AssignedKeys(sampled, extras)| <= RampSize(sampled, extras)
    ensures |AssignedKeys(sampled, extras)| == RampSize(sampled, extras) <==> FirstEmptyGroup(sampled) == |sampled|
  {
  }

  /** In a fresh table the soma is the first key, whatever else is selected. */
  lemma SomaFirst(sampled: seq<SegmentGroup>, extras: seq<nat>, size: int)
    ensures var t := NewTable(Empty(), sampled, extras, size);
            |t.keys| > 0 && t.keys[0] == Soma
  {
    var ps := Marks(AssignedKeys(sampled, extras), size, RampSize(sampled, extras));
    PutAllFirstKey(ps);
  }

  /**
   * A fresh table has at most one entry per colour of the ramp, and exactly one
   * per colour precisely when every group has segments and no two assignments share a key.
   */
  lemma SelectionSize(sampled: seq<SegmentGroup>, extras: seq<nat>, size: int)
    ensures |NewTable(Empty(), sampled, extras, size).keys| <= RampSize(sampled, extras)
    ensures |NewTable(Empty(), sampled, extras, size).keys| == RampSize(sampled, extras) <==>
              FirstEmptyGroup(sampled) == |sampled| && Distinct(AssignedKeys(sampled, extras))
  {
    var keys := AssignedKeys(sampled, extras);
    var ps := Marks(keys, size, RampSize(sampled, extras));
    assert KeysOf(ps) == keys;
    PutAllSize(Empty(), ps);
    AssignedKeysCount(sampled, extras);
  }

  /** Every assigned key is in the table afterwards. */
  lemma AssignedKeyRecorded<K(!new)>(init: Dict<K, Marker>, keys: seq<K>, size: int, points: nat, i: nat)
    requires i < |keys|
    ensures keys[i] in PutAll(init, Marks(keys, size, points)).entries
  {
    var ps := Marks(keys, size, points);
    assert KeysOf(ps)[i] == keys[i];
    PutAllDomain(init, ps, keys[i]);
  }

  /** When no group is empty, each sampled group contributes the key of its middle segment. */
  lemma MidpointsRecorded(init: Dict<string, Marker>, sampled: seq<SegmentGroup>, extras: seq<nat>, size: int, g: nat)
    requires FirstEmptyGroup(sampled) == |sampled| && g < |sampled|
    ensures |sampled[g].segments| > 0
    ensures AssignedKeys(sampled, extras)[1 + g] == NatToString(sampled[g].segments[|sampled[g].segments| / 2])
    ensures NatToString(sampled[g].segments[|sampled[g].segments| / 2]) in NewTable(init, sampled, extras, size).entries
  {
    AssignedKeysComplete(sampled, extras);
    assert AssignedKeys(sampled, extras)[1 + g] == MidpointKeys(sampled)[g];
    AssignedKeyRecorded(init, AssignedKeys(sampled, extras), size, RampSize(sampled, extras), 1 + g);
  }

  /** When no group is empty, every configured extra is recorded under `str(s)`. */
  lemma ExtrasRecorded(init: Dict<string, Marker>, sampled: seq<SegmentGroup>, extras: seq<nat>, size: int, e: nat)
    requires FirstEmptyGroup(sampled) == |sampled| && e < |extras|
    ensures AssignedKeys(sampled, extras)[1 + |sampled| + e] == NatToString(extras[e])
    ensures NatToString(extras[e]) in NewTable(init, sampled, extras, size).entries
  {
    ExtraKeyAt(sampled, extras, e);
    AssignedKeyRecorded(init, AssignedKeys(sampled, extras), size, RampSize(sampled, extras), 1 + |sampled| + e);
  }

  lemma ExtraKeyAt(sampled: seq<SegmentGroup>, extras: seq<nat>, e: nat)
    requires FirstEmptyGroup(sampled) == |sampled| && e < |extras|
    ensures 1 + |sampled| + e < |AssignedKeys(sampled, extras)|
    ensures AssignedKeys(sampled, extras)[1 + |sampled| + e] == NatToString(extras[e])
  {
    AssignedKeysComplete(sampled, extras);
    assert ExtraKeys(extras)[e] == NatToString(extras[e]);
  }

  /**
   * Each assigned key ends with the marker of its LAST assignment: the configured
   * marker size and the ramp colour whose index is that assignment's position.
   */
  lemma MarkerOfKey(init: Dict<string, Marker>, sampled: seq<SegmentGroup>, extras: seq<nat>, size: int, k: string)
    requires k in AssignedKeys(sampled, extras)
    ensures k in NewTable(init, sampled, extras, size).entries
    ensures NewTable(init, sampled, extras, size).entries[k] ==
            Marker(size, RampColor(LastIndexOf(AssignedKeys(sampled, extras), k), RampSize(sampled, extras)))
  {
    var keys := AssignedKeys(sampled, extras);
    var ps := Marks(keys, size, RampSize(sampled, extras));
    var i := LastIndexOf(keys, k);
    PutAllLastWins(init, ps, i);
  }

  /** Different keys of a fresh table carry different colours, all from the same ramp. */
  lemma DistinctColors(sampled: seq<SegmentGroup>, extras: seq<nat>, size: int, k1: string, k2: string)
    requires k1 in NewTable(Empty(), sampled, extras, size).entries
    requires k2 in NewTable(Empty(), sampled, extras, size).entries
    requires k1 != k2
    ensures NewTable(Empty(), sampled, extras, size).entries[k1].color != NewTable(Empty(), sampled, extras, size).entries[k2].color
    ensures NewTable(Empty(), sampled, extras, size).entries[k1].size == size
    ensures NewTable(Empty(), sampled, extras, size).entries[k1].color.points == RampSize(sampled, extras)
  {
    var keys := AssignedKeys(sampled, extras);
    var ps := Marks(keys, size, RampSize(sampled, extras));
    assert KeysOf(ps) == keys;
    PutAllDomain(Empty(), ps, k1);
    PutAllDomain(Empty(), ps, k2);
    MarkerOfKey(Empty(), sampled, extras, size, k1);
    MarkerOfKey(Empty(), sampled, extras, size, k2);
  }

  /**
   * A key assigned twice (an extra equal to a midpoint, or to the soma) stays at
   * the position of its first assignment: keys of a fresh table are ordered by
   * first assignment.
   */
  lemma KeysInFirstAssignmentOrder(sampled: seq<SegmentGroup>, extras: seq<nat>, size: int, a: nat, b: nat)
    requires a < b < |NewTable(Empty(), sampled, extras, size).keys|
    ensures NewTable(Empty(), sampled, extras, size).keys[a] in AssignedKeys(sampled, extras)
    ensures NewTable(Empty(), sampled, extras, size).keys[b] in AssignedKeys(sampled, extras)
    ensures FirstIndexOf(AssignedKeys(sampled, extras), NewTable(Empty(), sampled, extras, size).keys[a]) <
            FirstIndexOf(AssignedKeys(sampled, extras), NewTable(Empty(), sampled, extras, size).keys[b])
  {
    var keys := AssignedKeys(sampled, extras);
    var ps := Marks(keys, size, RampSize(sampled, extras));
    assert KeysOf(ps) == keys;
    PutAllFirstOccurrenceOrder(Empty(), ps, a, b);
  }

  /** The soma takes the first colour of the ramp unless a later assignment re-uses its key. */
  lemma SomaColor(sampled: seq<SegmentGroup>, extras: seq<nat>, size: int)
    requires forall i :: 1 <= i < |AssignedKeys(sampled, extras)| ==> AssignedKeys(sampled, extras)[i] != Soma
    ensures Soma in NewTable(Empty(), sampled, extras, size).entries
    ensures NewTable(Empty(), sampled, extras, size).entries[Soma] == Marker(size, RampColor(0, RampSize(sampled, extras)))
  {
    var keys := AssignedKeys(sampled, extras);
    assert keys[0] == Soma;
    MarkerOfKey(Empty(), sampled, extras, size, Soma);
    assert LastIndexOf(keys, Soma) == 0;
  }

  // ---- marks of the Poisson input segments ----

  /**
   * `input_segment_marks[sg.id] = marker` for each sampled input segment, each
   * with the next colour of a ramp of `points` colours.
   */
  method MarkInputs(ids: seq<nat>, size: int, points: nat) returns (marks: Dict<nat, Marker>)
    requires |ids| <= points
    ensures marks == PutAll(Empty(), Marks(ids, size, points))
  {
    var colors := new ColorIterator(points);
    marks := Empty();
    var i := 0;
    while i < |ids|
      invariant 0 <= i <= |ids|
      invariant colors.points == points && colors.drawn == i
      invariant marks == PutAll(Empty(), Marks(ids[..i], size, points))
    {
      var c := colors.Next();
      MarksSnoc(ids[..i], ids[i], size, points);
      PutAllSnoc(Empty(), Marks(ids[..i], size, points), ids[i], Marker(size, c));
      marks := marks.Put(ids[i], Marker(size, c));
      assert ids[..i + 1] == ids[..i] + [ids[i]];
      i := i + 1;
    }
    assert ids[..i] == ids;
  }

  /**
   * Distinct input segments get one mark each, in sampling order, the i-th with
   * the i-th colour of the ramp.
   */
  lemma InputMarksShape(ids: seq<nat>, size: int, points: nat, i: nat)
    requires Distinct(ids) && i < |ids|
    ensures PutAll(Empty(), Marks(ids, size, points)).keys == ids
    ensures ids[i] in PutAll(Empty(), Marks(ids, size, points)).entries
    ensures PutAll(Empty(), Marks(ids, size, points)).entries[ids[i]] == Marker(size, RampColor(i, points))
  {
    var ps := Marks(ids, size, points);
    assert KeysOf(ps) == ids;
    PutAllDistinctKeys(ps);
    PutAllLastWins(Empty(), ps, i);
  }
}
