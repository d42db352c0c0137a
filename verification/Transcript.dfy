/** The transcript accumulator of the iFlytek recognizer (internal/adapters/xfyun/transcript.go), which
    patches numbered parts (wpgs) and commits finished sentences. */
module Transcript {

  /** `slots` are the word slots of a result, each with its candidate words. */
  datatype Update = Update(sn: int, rst: string, slots: seq<seq<string>>, pgs: string, rg: seq<int>)

  datatype State = State(committed: string, parts: map<int, string>)

  const EMPTY := State("", map[])

  /** The first candidate of every slot that has one. */
  function Flattened(slots: seq<seq<string>>): string {
    if slots == [] then ""
    else Flattened(slots[..|slots| - 1]) + if slots[|slots| - 1] == [] then "" else slots[|slots| - 1][0]
  }

  lemma {:induction false} FlattenedConcat(a: seq<seq<string>>, b: seq<seq<string>>)
    ensures Flattened(a + b) == Flattened(a) + Flattened(b)
  {
    if b == [] {
      assert a + b == a;
    } else {
      FlattenedConcat(a, b[..|b| - 1]);
      assert (a + b)[..|a + b| - 1] == a + b[..|b| - 1];
    }
  }

  /** A slot adds its first candidate to the text, at its place, and an empty slot nothing. */
  lemma SlotSays(before: seq<seq<string>>, slot: seq<string>, behind: seq<seq<string>>)
    ensures Flattened(before + [slot] + behind) ==
      Flattened(before) + (if |slot| > 0 then slot[0] else "") + Flattened(behind)
  {
    FlattenedConcat(before + [slot], behind);
    FlattenedConcat(before, [slot]);
    assert Flattened([slot]) == if |slot| > 0 then slot[0] else "";
  }

  function TextOf(u: Update): string {
    Flattened(u.slots)
  }

  function TextAt(parts: map<int, string>, sn: int): string {
    if sn in parts then parts[sn] else ""
  }

  function Joined(parts: map<int, string>, n: nat): string {
    if n == 0 then "" else Joined(parts, n - 1) + TextAt(parts, n)
  }

  lemma Pick<T>(s: set<T>) returns (x: T)
    requires s != {}
    ensures x in s
  {
    x :| x in s;
  }

  lemma SomeKey(keys: set<int>)
    requires keys != {}
    ensures exists k :: k in keys
  {
    var k := Pick(keys);
    assert k in keys;
  }

  ghost function MaxOf(keys: set<int>): (m: nat)
    ensures forall k | k in keys :: k <= m
    ensures m == 0 || m in keys
  {
    if keys == {} then 0
    else
      SomeKey(keys);
      var k :| k in keys;
      var m := MaxOf(keys - {k});
      assert forall x | x in keys :: x == k || x in keys - {k};
      if k > m then k else m
  }

  /** The parts with a positive number, in the order of their numbers. */
  ghost function Assembled(parts: map<int, string>): string {
    Joined(parts, MaxOf(parts.Keys))
  }

  predicate IsFinal(u: Update) {
    u.pgs == "" && u.rst == "rlt"
  }

  predicate IsPatch(u: Update) {
    u.pgs != ""
  }

  predicate Replaces(u: Update, sn: int) {
    u.pgs == "rpl" && |u.rg| == 2 && u.rg[0] <= sn <= u.rg[1]
  }

  function Between(first: int, last: int): (s: set<int>)
    ensures forall sn :: sn in s <==> first <= sn <= last
    decreases last - first
  {
    if first > last then {} else Between(first, last - 1) + {last}
  }

  function Kept(parts: map<int, string>, u: Update): map<int, string> {
    if u.pgs == "rpl" && |u.rg| == 2 then parts - Between(u.rg[0], u.rg[1]) else parts
  }

  function Applied(s: State, u: Update): State {
    if IsFinal(u) then State(s.committed + TextOf(u), map[])
    else if !IsPatch(u) then s.(parts := map[u.sn := TextOf(u)])
    else s.(parts := Kept(s.parts, u)[u.sn := TextOf(u)])
  }

  /** The text that applying `u` returns. */
  ghost function Shown(s: State, u: Update): string {
    if IsFinal(u) then Applied(s, u).committed
    else if !IsPatch(u) then s.committed + TextOf(u)
    else s.committed + Assembled(Applied(s, u).parts)
  }

  class TranscriptAccumulator {
    var committed: string
    var parts: map<int, string>

    function Abs(): State
      reads this
    {
      State(committed, parts)
    }

    constructor ()
      ensures Abs() == EMPTY
    {
      committed, parts := "", map[];
    }

    method Apply(u: Update) returns (text: string)
      modifies this
      ensures Abs() == Applied(old(Abs()), u)
      ensures text == Shown(old(Abs()), u)
    {
      var written := FlattenDecodedText(u.slots);
      var current;
      if u.pgs == "" {
        match u.rst {
          case "rlt" =>
            parts := map[];
            committed := committed + written;
            return committed;
          case _ =>
            parts := map[u.sn := written];
            current := written;
        }
      } else {
        if u.pgs == "rpl" && |u.rg| == 2 {
          var kept := WithoutRange(parts, u.rg[0], u.rg[1]);
          parts := kept;
        }
        assert parts == Kept(old(parts), u);
        parts := parts[u.sn := written];
        current := AssembleParts(parts);
      }
      return committed + current;
    }
  }

  /** The loop that deletes the replaced parts. */
  method WithoutRange(parts: map<int, string>, first: int, last: int) returns (kept: map<int, string>)
    ensures kept == parts - Between(first, last)
  {
    kept := parts;
    var i := first;
    while i <= last
      invariant i <= last + 1 || i == first
      invariant first <= i
      invariant kept == parts - Between(first, i - 1)
      decreases last - i
    {
      kept := kept - {i};
      i := i + 1;
    }
    assert Between(first, i - 1) == Between(first, last);
  }

  method FlattenDecodedText(slots: seq<seq<string>>) returns (text: string)
    ensures text == Flattened(slots)
  {
    text := "";
    for i := 0 to |slots|
      invariant text == Flattened(slots[..i])
    {
      assert slots[..i + 1][..i] == slots[..i];
      if |slots[i]| == 0 {
        assert text + "" == text;
        continue;
      }
      text := text + slots[i][0];
    }
    assert slots[..|slots|] == slots;
  }

  /** The keys of a map are met in no particular order. */
  method AssembleParts(parts: map<int, string>) returns (text: string)
    ensures text == Assembled(parts)
  {
    var maxSN := 0;
    var keys := parts.Keys;
    while keys != {}
      invariant keys <= parts.Keys
      invariant forall sn | sn in parts && sn !in keys :: sn <= maxSN
      invariant maxSN == 0 || maxSN in parts
      invariant maxSN >= 0
      decreases |keys|
    {
      SomeKey(keys);
      var sn :| sn in keys;
      keys := keys - {sn};
      if sn > maxSN {
        maxSN := sn;
      }
    }
    text := "";
    for i := 1 to maxSN + 1
      invariant text == Joined(parts, i - 1)
    {
      text := text + if i in parts then parts[i] else "";
    }
    assert maxSN == MaxOf(parts.Keys);
  }

  // Last-writer semantics, from the history alone.

  function Run(h: seq<Update>): State {
    if h == [] then EMPTY else Applied(Run(h[..|h| - 1]), h[|h| - 1])
  }

  predicate Writes(u: Update, sn: int) {
    !IsFinal(u) && u.sn == sn
  }

  /** `u` leaves nothing of what was written at `sn` before it. */
  predicate Clears(u: Update, sn: int) {
    !IsPatch(u) || u.sn == sn || Replaces(u, sn)
  }

  /** `h[j]` wrote at `sn`, and nothing later cleared or overwrote it. */
  ghost predicate LastWriter(h: seq<Update>, sn: int, j: nat) {
    j < |h| && Writes(h[j], sn) && forall k | j < k < |h| :: !Clears(h[k], sn)
  }

  lemma LastWriterIsUnique(h: seq<Update>, sn: int, i: nat, j: nat)
    requires LastWriter(h, sn, i) && LastWriter(h, sn, j)
    ensures i == j
  {
  }

  lemma LastWriterExtends(h: seq<Update>, u: Update, sn: int, j: nat)
    requires !Writes(u, sn)
    ensures LastWriter(h + [u], sn, j) <==> LastWriter(h, sn, j) && !Clears(u, sn)
  {
    var g := h + [u];
    assert g[|h|] == u;
    assert forall k | 0 <= k < |h| :: g[k] == h[k];
    if LastWriter(g, sn, j) {
      assert j < |h|;
      assert !Clears(g[|h|], sn);
      forall k | j < k < |h| ensures !Clears(h[k], sn) {
        assert !Clears(g[k], sn);
      }
    }
  }

  /** What one update does to the part at one number. */
  lemma PartAfter(s: State, u: Update, sn: int)
    ensures var parts := Applied(s, u).parts;
      if Writes(u, sn) then sn in parts && parts[sn] == TextOf(u)
      else if Clears(u, sn) then sn !in parts
      else (sn in parts <==> sn in s.parts) && (sn in parts ==> parts[sn] == s.parts[sn])
  {
  }

  /** A part is held exactly if something was written at its number that no later update cleared, and
      it is the last text written there. */
  lemma {:induction false} PartsAreLastWrites(h: seq<Update>, sn: int)
    ensures sn in Run(h).parts <==> exists j: nat :: LastWriter(h, sn, j)
    ensures forall j: nat | LastWriter(h, sn, j) :: sn in Run(h).parts && Run(h).parts[sn] == TextOf(h[j])
  {
    if h != [] {
      var before, u := h[..|h| - 1], h[|h| - 1];
      PartsAreLastWrites(before, sn);
      PartAfter(Run(before), u, sn);
      assert h == before + [u];
      if Writes(u, sn) {
        assert LastWriter(h, sn, |h| - 1);
      } else {
        forall j: nat ensures LastWriter(h, sn, j) <==> LastWriter(before, sn, j) && !Clears(u, sn) {
          LastWriterExtends(before, u, sn, j);
        }
      }
    }
  }

  /** The last text written at a number and not cleared since, if any. */
  ghost function LastText(h: seq<Update>, sn: int): (text: string)
    ensures forall j: nat | LastWriter(h, sn, j) :: text == TextOf(h[j])
    ensures (forall j: nat :: !LastWriter(h, sn, j)) ==> text == ""
  {
    if exists j: nat :: LastWriter(h, sn, j) then
      var j: nat :| LastWriter(h, sn, j);
      assert forall i: nat | LastWriter(h, sn, i) :: i == j by {
        forall i: nat | LastWriter(h, sn, i) ensures i == j {
          LastWriterIsUnique(h, sn, i, j);
        }
      }
      TextOf(h[j])
    else
      ""
  }

  /** The texts last written at 1, ..., n, in that order. */
  ghost function LastTexts(h: seq<Update>, n: nat): string {
    if n == 0 then "" else LastTexts(h, n - 1) + LastText(h, n)
  }

  /** What is held at a number is the last text written there. */
  lemma TextHeld(h: seq<Update>, sn: nat)
    ensures TextAt(Run(h).parts, sn) == LastText(h, sn)
  {
    PartsAreLastWrites(h, sn);
    if sn in Run(h).parts {
      var j: nat :| LastWriter(h, sn, j);
    }
  }

  lemma {:induction false} JoinedTexts(parts: map<int, string>, h: seq<Update>, n: nat)
    requires forall sn: nat | sn <= n :: TextAt(parts, sn) == LastText(h, sn)
    ensures Joined(parts, n) == LastTexts(h, n)
  {
    if n > 0 {
      JoinedTexts(parts, h, n - 1);
    }
  }

  lemma JoinedAreLastTexts(h: seq<Update>, n: nat)
    ensures Joined(Run(h).parts, n) == LastTexts(h, n)
  {
    forall sn: nat | sn <= n ensures TextAt(Run(h).parts, sn) == LastText(h, sn) {
      TextHeld(h, sn);
    }
    JoinedTexts(Run(h).parts, h, n);
  }

  /** The committed text: what the final results said, one after the other. */
  function Finals(h: seq<Update>): string {
    if h == [] then ""
    else Finals(h[..|h| - 1]) + if IsFinal(h[|h| - 1]) then TextOf(h[|h| - 1]) else ""
  }

  lemma {:induction false} CommittedAreFinals(h: seq<Update>)
    ensures Run(h).committed == Finals(h)
  {
    if h != [] {
      CommittedAreFinals(h[..|h| - 1]);
    }
  }

  lemma {:induction false} JoinedSingle(sn: int, text: string, n: nat)
    ensures Joined(map[sn := text], n) == if 1 <= sn <= n then text else ""
  {
    if n > 0 {
      JoinedSingle(sn, text, n - 1);
    }
  }

  lemma AssembledSingle(sn: int, text: string)
    ensures Assembled(map[sn := text]) == if sn >= 1 then text else ""
  {
    JoinedSingle(sn, text, MaxOf((map[sn := text]).Keys));
    assert sn in map[sn := text];
  }

  lemma {:induction false} JoinedSkips(parts: map<int, string>, m: nat, n: nat)
    requires m <= n && forall k | k in parts :: k <= m || k > n
    ensures Joined(parts, n) == Joined(parts, m)
  {
    if m < n {
      JoinedSkips(parts, m, n - 1);
    }
  }

  /** The assembled text does not depend on how far beyond the parts it is assembled. */
  lemma AssembledUpTo(parts: map<int, string>, n: nat)
    requires forall k | k in parts :: k <= n
    ensures Assembled(parts) == Joined(parts, n)
  {
    JoinedSkips(parts, MaxOf(parts.Keys), n);
  }

  /** After any history the text shown is everything committed and then, in the order of their numbers,
      the last texts written and not cleared since; only a plain result under a number below one, which
      assembling would skip, is shown regardless. */
  lemma ShownIsLastWrites(h: seq<Update>, u: Update, n: nat)
    requires forall sn | sn in Run(h + [u]).parts :: sn <= n
    ensures Shown(Run(h), u) == Finals(h + [u]) + LastTexts(h + [u], n)
      <==> IsFinal(u) || IsPatch(u) || u.sn >= 1 || TextOf(u) == ""
  {
    assert (h + [u])[..|h|] == h;
    CommittedAreFinals(h);
    CommittedAreFinals(h + [u]);
    var s := Run(h + [u]);
    AssembledUpTo(s.parts, n);
    JoinedAreLastTexts(h + [u], n);
    if IsFinal(u) {
      assert s.committed + "" == s.committed;
    } else if !IsPatch(u) {
      AssembledSingle(u.sn, TextOf(u));
    }
  }

  /** Which results do what: a plain "rlt" moves its text to what is committed and drops all parts; any other
      plain result leaves itself as the only part; of the patches, "rpl" with a range drops the parts in the
      range, both ends included, and nothing else does. */
  lemma UpdateDoes(s: State, u: Update)
    ensures var t := Applied(s, u);
      if u.pgs == "" && u.rst == "rlt" then t == State(s.committed + Flattened(u.slots), map[])
      else
        && t.committed == s.committed
        && u.sn in t.parts && t.parts[u.sn] == Flattened(u.slots)
        && forall sn | sn != u.sn ::
             if u.pgs == "" || (u.pgs == "rpl" && |u.rg| == 2 && u.rg[0] <= sn <= u.rg[1]) then sn !in t.parts
             else (sn in t.parts <==> sn in s.parts) && (sn in s.parts ==> t.parts[sn] == s.parts[sn])
  {
  }

  /** Committed text only ever grows at its end. */
  lemma CommittedGrows(s: State, u: Update)
    ensures s.committed <= Applied(s, u).committed
    ensures !IsFinal(u) ==> Applied(s, u).committed == s.committed
  {
  }

  /** Parts appended under different numbers may come in either order. */
  lemma AppendsCommute(s: State, u: Update, v: Update)
    requires IsPatch(u) && IsPatch(v) && u.pgs != "rpl" && v.pgs != "rpl" && u.sn != v.sn
    ensures Applied(Applied(s, u), v) == Applied(Applied(s, v), u)
    ensures Shown(Applied(s, u), v) == Shown(Applied(s, v), u)
  {
    assert Kept(s.parts, u) == s.parts == Kept(s.parts, v);
    assert Applied(s, u).parts == s.parts[u.sn := TextOf(u)];
    assert Applied(s, v).parts == s.parts[v.sn := TextOf(v)];
    assert Kept(Applied(s, u).parts, v) == Applied(s, u).parts;
    assert Kept(Applied(s, v).parts, u) == Applied(s, v).parts;
    assert s.parts[u.sn := TextOf(u)][v.sn := TextOf(v)] == s.parts[v.sn := TextOf(v)][u.sn := TextOf(u)];
  }
}
