/** The map-pool editor of the stage form (app/admin/stages/page.tsx): one list
    of beatmap-id text slots per mod pool, the three slot editors, and the
    filtering done on submit.  `parseInt` is left abstract: a `parse` function
    applied to the trimmed text. */
module MapPool {
  import opened Types

  /** Every mod pool has its list of beatmap-id text slots. */
  type Pools = map<ModPool, seq<string>>

  /** `handleBeatmapChange(mod, index, value)`: slot `index` of `mod` becomes `value`. */
  function ChangeSlot(pools: Pools, mod: ModPool, index: int, value: string): (r: Pools)
    requires mod in pools
    ensures r.Keys == pools.Keys
    ensures forall m :: m in pools && m != mod ==> r[m] == pools[m]
    ensures |r[mod]| == |pools[mod]|
    ensures forall i :: 0 <= i < |r[mod]| && i != index ==> r[mod][i] == pools[mod][i]
    ensures 0 <= index < |pools[mod]| ==> r[mod][index] == value
    // An index outside the list changes nothing.
    ensures !(0 <= index < |pools[mod]|) ==> r == pools
  {
    var s := pools[mod];
    var r := pools[mod := seq(|s|, i requires 0 <= i < |s| => if i == index then value else s[i])];
    assert !(0 <= index < |s|) ==> r[mod] == s;
    r
  }

  /** `addBeatmapSlot(mod)`: an empty slot is appended to `mod`. */
  function AddSlot(pools: Pools, mod: ModPool): (r: Pools)
    requires mod in pools
    ensures r.Keys == pools.Keys
    ensures forall m :: m in pools && m != mod ==> r[m] == pools[m]
    ensures |r[mod]| == |pools[mod]| + 1
    ensures r[mod][..|pools[mod]|] == pools[mod] && r[mod][|pools[mod]|] == ""
  {
    pools[mod := pools[mod] + [""]]
  }

  /** The list without the entry at position `index`, walking it from position `from`. */
  function DropIndex(s: seq<string>, index: int, from: nat): (r: seq<string>)
    ensures from <= index < from + |s| ==> r == s[..index - from] + s[index - from + 1..]
    ensures !(from <= index < from + |s|) ==> r == s
    decreases |s|
  {
    if s == [] then []
    else if from == index then
      var r := DropIndex(s[1..], index, from + 1);
      assert s[..0] + s[1..] == s[1..];
      r
    else
      var rest := DropIndex(s[1..], index, from + 1);
      var r := [s[0]] + rest;
      assert from < index < from + |s| ==> r == s[..index - from] + s[index - from + 1..] by {
        if from < index < from + |s| {
          var i := index - from;
          assert rest == s[1..][..i - 1] + s[1..][i..];
          assert s[1..][i..] == s[i + 1..];
          assert [s[0]] + s[1..][..i - 1] == s[..i];
        }
      }
      assert !(from <= index < from + |s|) ==> r == s;
      r
  }

  /** `removeBeatmapSlot(mod, index)`: slot `index` of `mod` is deleted. */
  function RemoveSlot(pools: Pools, mod: ModPool, index: int): (r: Pools)
    requires mod in pools
    ensures r.Keys == pools.Keys
    ensures forall m :: m in pools && m != mod ==> r[m] == pools[m]
    ensures 0 <= index < |pools[mod]| ==>
      r[mod] == pools[mod][..index] + pools[mod][index + 1..] && |r[mod]| == |pools[mod]| - 1
    // An index outside the list changes nothing.
    ensures !(0 <= index < |pools[mod]|) ==> r == pools
  {
    var r := pools[mod := DropIndex(pools[mod], index, 0)];
    assert !(0 <= index < |pools[mod]|) ==> r[mod] == pools[mod];
    r
  }

  /** Characters `String.prototype.trim` removes (the ASCII ones). */
  predicate IsSpace(c: char)
  {
    c == ' ' || c == '\t' || c == '\n' || c == '\r' || c == '\U{0B}' || c == '\U{0C}'
  }

  function TrimStart(s: string): (r: string)
    ensures |r| <= |s| && r == s[|s| - |r|..]
    ensures r == [] || !IsSpace(r[0])
    ensures forall i :: 0 <= i < |s| - |r| ==> IsSpace(s[i])
  {
    if s != [] && IsSpace(s[0]) then TrimStart(s[1..]) else s
  }

  function TrimEnd(s: string): (r: string)
    ensures |r| <= |s| && r == s[..|r|]
    ensures r == [] || !IsSpace(r[|r| - 1])
    ensures forall i :: |r| <= i < |s| ==> IsSpace(s[i])
  {
    if s != [] && IsSpace(s[|s| - 1]) then TrimEnd(s[..|s| - 1]) else s
  }

  /** The text without leading and trailing whitespace. */
  function Trim(s: string): string
  {
    TrimEnd(TrimStart(s))
  }

  /** A slot is blank when its text is empty after trimming. */
  predicate Blank(s: string)
  {
    Trim(s) == ""
  }

  /** Blank exactly when every character is a space. */
  lemma BlankIffAllSpace(s: string)
    ensures Blank(s) <==> forall i :: 0 <= i < |s| ==> IsSpace(s[i])
  {
    var t := TrimStart(s);
    if Blank(s) {
      assert t == [];
    }
  }

  /** The ids submitted for one pool: blank slots are dropped and the others parsed after trimming. */
  function ParseIds(ids: seq<string>, parse: string -> int): (r: seq<int>)
    ensures |r| <= |ids|
  {
    if ids == [] then [] else Keep(ids[0], parse) + ParseIds(ids[1..], parse)
  }

  /** What one slot contributes: nothing when blank, else its parsed trimmed text. */
  function Keep(id: string, parse: string -> int): (r: seq<int>)
    ensures r == [] <==> Blank(id)
    ensures !Blank(id) ==> r == [parse(Trim(id))]
  {
    if Blank(id) then [] else [parse(Trim(id))]
  }

  /** The positions, counted from `from`, of the marked entries, in increasing order. */
  function Marked(marks: seq<bool>, from: nat): (r: seq<nat>)
    ensures |r| <= |marks|
    decreases |marks|
  {
    if marks == [] then []
    else (if marks[0] then [from] else []) + Marked(marks[1..], from + 1)
  }

  /** Each listed position is marked and lies within the sequence. */
  lemma {:induction false} MarkedSound(marks: seq<bool>, from: nat)
    ensures forall k :: 0 <= k < |Marked(marks, from)| ==>
      from <= Marked(marks, from)[k] < from + |marks| && marks[Marked(marks, from)[k] - from]
    decreases |marks|
  {
    if marks != [] {
      var tail := marks[1..];
      MarkedSound(tail, from + 1);
      var rest := Marked(tail, from + 1);
      var h: seq<nat> := if marks[0] then [from] else [];
      var r := Marked(marks, from);
      assert r == h + rest;
      forall k | 0 <= k < |r| ensures from <= r[k] < from + |marks| && marks[r[k] - from] {
        if k >= |h| {
          assert r[k] == rest[k - |h|];
          assert marks[r[k] - from] == tail[r[k] - (from + 1)];
        }
      }
    }
  }

  /** Positions are listed in increasing order. */
  lemma {:induction false} MarkedIncreasing(marks: seq<bool>, from: nat)
    ensures forall k, l :: 0 <= k < l < |Marked(marks, from)| ==> Marked(marks, from)[k] < Marked(marks, from)[l]
    decreases |marks|
  {
    if marks != [] {
      var tail := marks[1..];
      MarkedIncreasing(tail, from + 1);
      MarkedSound(tail, from + 1);
      var rest := Marked(tail, from + 1);
      var h: seq<nat> := if marks[0] then [from] else [];
      var r := Marked(marks, from);
      assert r == h + rest;
      forall k, l | 0 <= k < l < |r| ensures r[k] < r[l] {
        assert r[l] == rest[l - |h|];
        if k >= |h| {
          assert r[k] == rest[k - |h|];
        }
      }
    }
  }

  /** Every marked position is listed. */
  lemma {:induction false} MarkedComplete(marks: seq<bool>, from: nat)
    ensures forall i :: 0 <= i < |marks| && marks[i] ==> from + i in Marked(marks, from)
    decreases |marks|
  {
    if marks != [] {
      var tail := marks[1..];
      MarkedComplete(tail, from + 1);
      var rest := Marked(tail, from + 1);
      var h: seq<nat> := if marks[0] then [from] else [];
      var r := Marked(marks, from);
      assert r == h + rest;
      forall i | 0 <= i < |marks| && marks[i] ensures from + i in r {
        if i > 0 {
          assert tail[i - 1];
          assert from + 1 + (i - 1) in rest;
        }
      }
    }
  }

  /** Which slots are not blank. */
  function NonBlank(ids: seq<string>): (r: seq<bool>)
    ensures |r| == |ids| && forall i :: 0 <= i < |ids| ==> (r[i] <==> !Blank(ids[i]))
  {
    seq(|ids|, i requires 0 <= i < |ids| => !Blank(ids[i]))
  }

  /** `vals[k]` is `value` of the slot at position `slots[k]`, counted from `from`. */
  predicate ParsedAt(ids: seq<string>, value: string -> int, from: nat, vals: seq<int>, slots: seq<nat>)
  {
    |vals| == |slots|
    && forall k :: 0 <= k < |slots| && from <= slots[k] < from + |ids| ==>
         vals[k] == value(ids[slots[k] - from])
  }

  /** The value a kept slot contributes: the parse of its trimmed text. */
  function SlotValue(parse: string -> int): string -> int
  {
    id => parse(Trim(id))
  }

  /** Parsing walks the slots: the `k`-th id comes from the `k`-th non-blank slot. */
  lemma {:induction false} ParseIdsSlots(ids: seq<string>, parse: string -> int, from: nat)
    ensures ParsedAt(ids, SlotValue(parse), from, ParseIds(ids, parse), Marked(NonBlank(ids), from))
    decreases |ids|
  {
    if ids != [] {
      var rest := ids[1..];
      ParseIdsSlots(rest, parse, from + 1);
      var marks := NonBlank(ids);
      assert marks[1..] == NonBlank(rest);
      var h: seq<nat> := if marks[0] then [from] else [];
      assert Marked(marks, from) == h + Marked(NonBlank(rest), from + 1);
      MarkedSound(NonBlank(rest), from + 1);
      ParsedCons(ids, SlotValue(parse), from, Keep(ids[0], parse), ParseIds(rest, parse), h, Marked(NonBlank(rest), from + 1));
    }
  }

  /** One slot's contribution in front of the rest keeps values and positions aligned. */
  lemma ParsedCons(ids: seq<string>, value: string -> int, from: nat,
                   p: seq<int>, q: seq<int>, h: seq<nat>, t: seq<nat>)
    requires ids != [] && ParsedAt(ids[1..], value, from + 1, q, t)
    requires |p| == |h| <= 1
    requires forall j :: 0 <= j < |t| ==> from < t[j]
    requires h != [] ==> h[0] == from && p[0] == value(ids[0])
    ensures ParsedAt(ids, value, from, p + q, h + t)
  {
    forall k | 0 <= k < |h + t| && from <= (h + t)[k] < from + |ids|
      ensures (p + q)[k] == value(ids[(h + t)[k] - from])
    {
      if k >= |h| {
        var j := k - |h|;
        assert (p + q)[k] == q[j] && (h + t)[k] == t[j];
        assert from + 1 <= t[j] < from + 1 + |ids[1..]|;
        assert ids[t[j] - from] == ids[1..][t[j] - (from + 1)];
      }
    }
  }

  /** The submitted ids are exactly the parses of the trimmed non-blank slots,
      one per such slot, in slot order. */
  lemma ParseIdsExact(ids: seq<string>, parse: string -> int)
    ensures var slots := Marked(NonBlank(ids), 0);
      && |ParseIds(ids, parse)| == |slots|
      && (forall k :: 0 <= k < |slots| ==> slots[k] < |ids| && !Blank(ids[slots[k]]))
      && (forall k, l :: 0 <= k < l < |slots| ==> slots[k] < slots[l])
      && (forall i :: 0 <= i < |ids| && !Blank(ids[i]) ==> i in slots)
      && (forall k :: 0 <= k < |slots| ==> ParseIds(ids, parse)[k] == parse(Trim(ids[slots[k]])))
  {
    var marks := NonBlank(ids);
    MarkedSound(marks, 0);
    MarkedIncreasing(marks, 0);
    MarkedComplete(marks, 0);
    ParseIdsSlots(ids, parse, 0);
  }

  /** Filtering distributes over concatenation: kept ids stay in their order. */
  lemma {:induction false} ParseIdsAppend(a: seq<string>, b: seq<string>, parse: string -> int)
    ensures ParseIds(a + b, parse) == ParseIds(a, parse) + ParseIds(b, parse)
  {
    if a != [] {
      assert (a + b)[0] == a[0];
      assert (a + b)[1..] == a[1..] + b;
      ParseIdsAppend(a[1..], b, parse);
    } else {
      assert a + b == b;
    }
  }

  /** Nothing is kept exactly when every slot is blank. */
  lemma {:induction false} ParseIdsEmpty(ids: seq<string>, parse: string -> int)
    ensures ParseIds(ids, parse) == [] <==> forall i :: 0 <= i < |ids| ==> Blank(ids[i])
  {
    if ids != [] {
      var rest := ids[1..];
      ParseIdsEmpty(rest, parse);
      assert ParseIds(ids, parse) == Keep(ids[0], parse) + ParseIds(rest, parse);
      assert forall i :: 0 <= i < |rest| ==> rest[i] == ids[i + 1];
      if ParseIds(ids, parse) == [] {
        forall i | 0 <= i < |ids| ensures Blank(ids[i]) {
          if i > 0 {
            assert ids[i] == rest[i - 1];
          }
        }
      }
    }
  }

  /** The `beatmaps` part of the submitted stage: pools left without an id are omitted. */
  function SubmittedPools(pools: Pools, parse: string -> int): (r: map<ModPool, seq<int>>)
    ensures forall m :: m in r <==> m in pools && ParseIds(pools[m], parse) != []
    ensures forall m :: m in r ==> r[m] == ParseIds(pools[m], parse)
  {
    map m | m in pools && ParseIds(pools[m], parse) != [] :: ParseIds(pools[m], parse)
  }

  /** A pool is submitted exactly when one of its slots is not blank. */
  lemma SubmittedPoolsKeys(pools: Pools, parse: string -> int, m: ModPool)
    ensures m in SubmittedPools(pools, parse) <==>
      m in pools && exists i :: 0 <= i < |pools[m]| && !Blank(pools[m][i])
  {
    if m in pools {
      ParseIdsEmpty(pools[m], parse);
    }
  }
}
