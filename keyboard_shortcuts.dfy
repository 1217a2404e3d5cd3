/**
 * The keyboard shortcut registry and its chord matcher: sequences are
 * normalised on registration, key presses build tokens into a buffer that
 * lapses after 900 ms of silence, and a sequence that ends the buffer fires.
 *
 * Handlers are named by an opaque number; what they do is outside the model,
 * as is the help overlay. The clock reading is a parameter.
 */
module KeyboardShortcuts {
  import opened Wrappers
  import opened Text
  import opened Seqs

  // ------------------------------------------------------------ normalisation

  /** The string after its leading whitespace run. */
  function DropWs(s: string): (r: string)
    ensures |r| <= |s|
    ensures r == [] || !IsWs(r[0])
    ensures s != [] && IsWs(s[0]) ==> |r| < |s|
    ensures r == s[|s| - |r|..]
    ensures s != [] && !IsWs(s[|s| - 1]) ==> r != []
  {
    if s == [] || !IsWs(s[0]) then s else DropWs(s[1..])
  }

  /** `replace(/\s+/g, ' ')`: every whitespace run becomes one space. */
  function Collapse(s: string): (r: string)
    ensures s != [] && !IsWs(s[0]) ==> r != [] && r[0] == s[0]
    decreases |s|
  {
    if s == [] then []
    else if IsWs(s[0]) then " " + Collapse(DropWs(s))
    else [s[0]] + Collapse(s[1..])
  }

  /** `normalizeSequence`: trimmed, lower-cased, single-spaced. */
  function Normalize(s: string): string
  {
    Collapse(Lower(Strip(s)))
  }

  predicate NoUpper(s: string)
  {
    forall i :: 0 <= i < |s| ==> !IsUpper(s[i])
  }

  /** Every whitespace character is a space followed by a non-whitespace character. */
  predicate SingleSpaced(s: string)
  {
    forall i :: 0 <= i < |s| && IsWs(s[i]) ==> s[i] == ' ' && i + 1 < |s| && !IsWs(s[i + 1])
  }

  /** The normal form: lower case, single spaces, no space in front (nor, by single spacing, at the end). */
  predicate Normal(s: string)
  {
    NoUpper(s) && SingleSpaced(s) && (s == [] || !IsWs(s[0]))
  }

  lemma SingleSpacedCons(c: char, x: string)
    requires SingleSpaced(x)
    requires IsWs(c) ==> c == ' ' && x != [] && !IsWs(x[0])
    ensures SingleSpaced([c] + x)
  {
    var r := [c] + x;
    forall i | 0 <= i < |r| && IsWs(r[i]) ensures r[i] == ' ' && i + 1 < |r| && !IsWs(r[i + 1]) {
      if i > 0 {
        assert r[i] == x[i - 1];
      }
    }
  }

  lemma {:induction false} CollapseNoUpper(s: string)
    requires NoUpper(s)
    ensures NoUpper(Collapse(s))
    decreases |s|
  {
    if s != [] {
      if IsWs(s[0]) {
        var d := DropWs(s);
        assert NoUpper(d) by {
          forall i | 0 <= i < |d| ensures !IsUpper(d[i]) {
            assert d[i] == s[|s| - |d| + i];
          }
        }
        CollapseNoUpper(d);
        NoUpperCons(' ', Collapse(d));
      } else {
        assert NoUpper(s[1..]) by {
          forall i | 0 <= i < |s| - 1 ensures !IsUpper(s[1..][i]) {
            assert s[1..][i] == s[i + 1];
          }
        }
        CollapseNoUpper(s[1..]);
        NoUpperCons(s[0], Collapse(s[1..]));
      }
    }
  }

  lemma NoUpperCons(c: char, x: string)
    requires !IsUpper(c) && NoUpper(x)
    ensures NoUpper([c] + x)
  {
    var r := [c] + x;
    forall i | 0 <= i < |r| ensures !IsUpper(r[i]) {
      if i > 0 {
        assert r[i] == x[i - 1];
      }
    }
  }

  lemma {:induction false} CollapseSingleSpaced(s: string)
    requires s == [] || !IsWs(s[|s| - 1])
    ensures SingleSpaced(Collapse(s))
    decreases |s|
  {
    if s != [] {
      if IsWs(s[0]) {
        var d := DropWs(s);
        CollapseSingleSpaced(d);
        SingleSpacedCons(' ', Collapse(d));
      } else {
        CollapseSingleSpaced(s[1..]);
        SingleSpacedCons(s[0], Collapse(s[1..]));
      }
    }
  }

  lemma SingleSpacedTail(s: string)
    requires SingleSpaced(s) && s != []
    ensures SingleSpaced(s[1..])
  {
    var t := s[1..];
    forall i | 0 <= i < |t| && IsWs(t[i]) ensures t[i] == ' ' && i + 1 < |t| && !IsWs(t[i + 1]) {
      assert t[i] == s[i + 1];
    }
  }

  lemma {:induction false} CollapseFixed(s: string)
    requires SingleSpaced(s)
    ensures Collapse(s) == s
    decreases |s|
  {
    if s != [] {
      SingleSpacedTail(s);
      CollapseFixed(s[1..]);
      if IsWs(s[0]) {
        assert !IsWs(s[1..][0]);
        assert DropWs(s[1..]) == s[1..];
        assert DropWs(s) == s[1..];
        assert Collapse(s) == " " + Collapse(s[1..]);
      } else {
        assert Collapse(s) == [s[0]] + Collapse(s[1..]);
      }
    }
  }

  /** Normalising always yields the normal form. */
  lemma NormalizeIsNormal(s: string)
    ensures Normal(Normalize(s))
  {
    var t := Strip(s);
    var u := Lower(t);
    assert u == [] || (!IsWs(u[0]) && !IsWs(u[|u| - 1]));
    CollapseNoUpper(u);
    CollapseSingleSpaced(u);
  }

  /** A normal string is left as it is. */
  lemma NormalFixed(s: string)
    requires Normal(s)
    ensures Normalize(s) == s
  {
    if s != [] {
      assert !IsWs(s[|s| - 1]);
    }
    StripNoop(s);
    assert Lower(s) == s;
    CollapseFixed(s);
  }

  /** `normalizeSequence` is idempotent. */
  lemma NormalizeIdempotent(s: string)
    ensures Normalize(Normalize(s)) == Normalize(s)
  {
    NormalizeIsNormal(s);
    NormalFixed(Normalize(s));
  }

  // ------------------------------------------------------------ registry

  datatype Shortcut = Shortcut(sequence: string, description: string, handler: nat, global: bool)

  function SequenceOf(s: Shortcut): string { s.sequence }

  predicate Registered(list: seq<Shortcut>, sequence: string)
  {
    exists i :: 0 <= i < |list| && list[i].sequence == sequence
  }

  /** `register`: a sequence already present (after normalising) is ignored. */
  function RegisterIn(list: seq<Shortcut>, s: Shortcut): (r: seq<Shortcut>)
    ensures Registered(list, Normalize(s.sequence)) ==> r == list
    ensures !Registered(list, Normalize(s.sequence)) ==> r == list + [s.(sequence := Normalize(s.sequence))]
  {
    if Registered(list, Normalize(s.sequence)) then list else list + [s.(sequence := Normalize(s.sequence))]
  }

  /** `unregister`: drop every entry with the normalised sequence, keep the rest in order. */
  function UnregisterIn(list: seq<Shortcut>, sequence: string): (r: seq<Shortcut>)
    ensures !Registered(r, Normalize(sequence))
    ensures forall x :: x in list && x.sequence != Normalize(sequence) ==> x in r
    ensures forall x :: x in r ==> x in list
  {
    var r := Filter(list, (x: Shortcut) => x.sequence != Normalize(sequence));
    assert forall i :: 0 <= i < |r| ==> r[i].sequence != Normalize(sequence) by {
      forall i | 0 <= i < |r| ensures r[i].sequence != Normalize(sequence) {
        assert r[i] in r;
      }
    }
    r
  }

  /** Registration keeps the sequences distinct. */
  lemma RegisterKeepsDistinct(list: seq<Shortcut>, s: Shortcut)
    requires DistinctBy(list, SequenceOf)
    ensures DistinctBy(RegisterIn(list, s), SequenceOf)
  {
    var r := RegisterIn(list, s);
    if !Registered(list, Normalize(s.sequence)) {
      forall i, j | 0 <= i < j < |r| ensures SequenceOf(r[i]) != SequenceOf(r[j]) {
        if j == |list| {
          assert r[i] == list[i];
        }
      }
    }
  }

  /** Registering the same sequence twice, in any spelling, stores it once. */
  lemma RegisterTwiceOnce(list: seq<Shortcut>, s: Shortcut, t: Shortcut)
    requires Normalize(s.sequence) == Normalize(t.sequence)
    ensures RegisterIn(RegisterIn(list, s), t) == RegisterIn(list, s)
  {
    var r := RegisterIn(list, s);
    if !Registered(list, Normalize(s.sequence)) {
      assert r[|list|].sequence == Normalize(t.sequence);
    }
  }

  /** Registration of each shortcut of the list in turn. */
  function RegisterAll(list: seq<Shortcut>, more: seq<Shortcut>): (r: seq<Shortcut>)
    decreases |more|
  {
    if more == [] then list else RegisterAll(RegisterIn(list, more[0]), more[1..])
  }

  /** The five shortcuts the provider registers when it mounts; handlers are numbered 0 to 4. */
  const Defaults: seq<Shortcut> := [
    Shortcut("ctrl+k", "Open command palette", 0, true),
    Shortcut("g c", "Go to Customers", 1, false),
    Shortcut("g p", "Go to Products", 2, false),
    Shortcut("g o", "Go to Sales Orders", 3, false),
    Shortcut("?", "Show keyboard help", 4, true)
  ]

  /** Each default sequence is already in normal form. */
  lemma DefaultSequencesNormal(i: int)
    requires 0 <= i < |Defaults|
    ensures Normalize(Defaults[i].sequence) == Defaults[i].sequence
  {
    var q := Defaults[i].sequence;
    if i == 0 {
      assert q == "ctrl+k";
      PlainNormal(q);
    } else if i == 4 {
      assert q == "?";
      PlainNormal(q);
    } else {
      assert q == ['g', ' ', "cpo"[i - 1]];
      ChordNormal('g', "cpo"[i - 1]);
    }
    NormalFixed(q);
  }

  /** A string without whitespace or capitals is in normal form. */
  lemma PlainNormal(s: string)
    requires forall i :: 0 <= i < |s| ==> !IsWs(s[i]) && !IsUpper(s[i])
    ensures Normal(s)
  {
  }

  /** Two such characters separated by one space are in normal form. */
  lemma ChordNormal(a: char, b: char)
    requires !IsWs(a) && !IsUpper(a) && !IsWs(b) && !IsUpper(b)
    ensures Normal([a, ' ', b])
  {
    var s := [a, ' ', b];
    assert forall i :: 0 <= i < |s| && IsWs(s[i]) ==> i == 1;
  }

  /** Shortcuts already in normal form with sequences new to the list and to each other are appended as they are. */
  lemma {:induction false} RegisterAllFresh(list: seq<Shortcut>, more: seq<Shortcut>)
    requires forall i :: 0 <= i < |more| ==> Normalize(more[i].sequence) == more[i].sequence
    requires DistinctBy(list + more, SequenceOf)
    ensures RegisterAll(list, more) == list + more
    decreases |more|
  {
    if more != [] {
      RegisterFreshHead(list, more);
      FreshTail(list, more);
      RegisterAllFresh(list + [more[0]], more[1..]);
    }
  }

  /** Moving the first fresh shortcut onto the list keeps both preconditions. */
  lemma FreshTail(list: seq<Shortcut>, more: seq<Shortcut>)
    requires more != []
    requires forall i :: 0 <= i < |more| ==> Normalize(more[i].sequence) == more[i].sequence
    requires DistinctBy(list + more, SequenceOf)
    ensures forall i :: 0 <= i < |more[1..]| ==> Normalize(more[1..][i].sequence) == more[1..][i].sequence
    ensures DistinctBy((list + [more[0]]) + more[1..], SequenceOf)
    ensures (list + [more[0]]) + more[1..] == list + more
  {
    assert (list + [more[0]]) + more[1..] == list + more;
    forall i | 0 <= i < |more[1..]| ensures Normalize(more[1..][i].sequence) == more[1..][i].sequence {
      assert more[1..][i] == more[i + 1];
    }
  }

  /** The first of the fresh shortcuts is appended as it is. */
  lemma RegisterFreshHead(list: seq<Shortcut>, more: seq<Shortcut>)
    requires more != [] && Normalize(more[0].sequence) == more[0].sequence
    requires DistinctBy(list + more, SequenceOf)
    ensures RegisterIn(list, more[0]) == list + [more[0]]
  {
    var all := list + more;
    assert !Registered(list, Normalize(more[0].sequence)) by {
      forall i | 0 <= i < |list| ensures list[i].sequence != more[0].sequence {
        assert all[i] == list[i] && all[|list|] == more[0];
        assert SequenceOf(all[i]) != SequenceOf(all[|list|]);
      }
    }
    assert more[0].(sequence := Normalize(more[0].sequence)) == more[0];
  }

  /** The default sequences differ pairwise: by length, or by their third character. */
  lemma DefaultsDistinct()
    ensures DistinctBy(Defaults, SequenceOf)
  {
    var q := Map(Defaults, SequenceOf);
    assert q == ["ctrl+k", "g c", "g p", "g o", "?"];
    forall i, j | 0 <= i < j < |Defaults| ensures SequenceOf(Defaults[i]) != SequenceOf(Defaults[j]) {
      assert q[i] == SequenceOf(Defaults[i]) && q[j] == SequenceOf(Defaults[j]);
      if |q[i]| == |q[j]| {
        assert 1 <= i && j <= 3;
        assert q[i][2] != q[j][2];
      }
    }
  }

  /** All five defaults are kept as written, in order, with pairwise distinct sequences. */
  lemma DefaultsAllRegistered()
    ensures RegisterAll([], Defaults) == Defaults
    ensures DistinctBy(RegisterAll([], Defaults), SequenceOf)
  {
    forall i | 0 <= i < |Defaults| ensures Normalize(Defaults[i].sequence) == Defaults[i].sequence {
      DefaultSequencesNormal(i);
    }
    DefaultsDistinct();
    assert [] + Defaults == Defaults;
    RegisterAllFresh([], Defaults);
  }

  // ------------------------------------------------------------ chords

  const ChordTimeout: int := 900

  datatype KeyEvent = KeyEvent(ctrl: bool, meta: bool, alt: bool, shift: bool, key: string)

  predicate IsModifierKey(k: string)
  {
    k == "shift" || k == "control" || k == "alt" || k == "meta"
  }

  function Flag(on: bool, name: string): seq<string>
  {
    if on then [name] else []
  }

  /** How many of the four modifiers the event holds. */
  function HeldCount(e: KeyEvent): (n: nat)
    ensures n <= 4
  {
    (if e.ctrl then 1 else 0) + (if e.meta then 1 else 0) + (if e.alt then 1 else 0) + (if e.shift then 1 else 0)
  }

  /** The place of a modifier name in the token order; any other text comes after them. */
  function ModifierRank(name: string): nat
  {
    if name == "ctrl" then 0 else if name == "meta" then 1 else if name == "alt" then 2 else if name == "shift" then 3 else 4
  }

  /** The modifier names of an event, in ranked order. */
  predicate RankedModifiers(m: seq<string>)
  {
    (forall i :: 0 <= i < |m| ==> ModifierRank(m[i]) < 4) &&
    (forall i, j :: 0 <= i < j < |m| ==> ModifierRank(m[i]) < ModifierRank(m[j]))
  }

  /** The held modifiers' names: `ctrl`, `meta`, `alt`, `shift`, each exactly when held. */
  function ModifierParts(e: KeyEvent): (m: seq<string>)
    ensures |m| == HeldCount(e) && RankedModifiers(m)
    ensures ("ctrl" in m <==> e.ctrl) && ("meta" in m <==> e.meta)
    ensures ("alt" in m <==> e.alt) && ("shift" in m <==> e.shift)
  {
    var m := Flag(e.ctrl, "ctrl") + Flag(e.meta, "meta") + Flag(e.alt, "alt") + Flag(e.shift, "shift");
    ModifierPartsRanked(e, m);
    ModifierPartsMembers(e, m);
    m
  }

  lemma ModifierPartsRanked(e: KeyEvent, m: seq<string>)
    requires m == Flag(e.ctrl, "ctrl") + Flag(e.meta, "meta") + Flag(e.alt, "alt") + Flag(e.shift, "shift")
    ensures |m| == HeldCount(e) && RankedModifiers(m)
  {
    var front := Flag(e.ctrl, "ctrl") + Flag(e.meta, "meta");
    var back := Flag(e.alt, "alt") + Flag(e.shift, "shift");
    assert m == front + back;
    assert |front| == (if e.ctrl then 1 else 0) + (if e.meta then 1 else 0) && RankedModifiers(front)
           && forall i :: 0 <= i < |front| ==> ModifierRank(front[i]) < 2 by {
      RankedPair(e.ctrl, "ctrl", e.meta, "meta", 0);
    }
    assert |back| == (if e.alt then 1 else 0) + (if e.shift then 1 else 0) && RankedModifiers(back)
           && forall i :: 0 <= i < |back| ==> 2 <= ModifierRank(back[i]) by {
      RankedPair(e.alt, "alt", e.shift, "shift", 2);
    }
    RankedJoin(front, back, 2);
  }

  /** Two optional names of consecutive ranks, in order, form a ranked run within those ranks. */
  lemma RankedPair(a: bool, x: string, b: bool, y: string, lo: nat)
    requires ModifierRank(x) == lo && ModifierRank(y) == lo + 1 && lo + 1 < 4
    ensures var m := Flag(a, x) + Flag(b, y);
            |m| == (if a then 1 else 0) + (if b then 1 else 0) && RankedModifiers(m) &&
            forall i :: 0 <= i < |m| ==> lo <= ModifierRank(m[i]) < lo + 2
  {
  }

  lemma ModifierPartsMembers(e: KeyEvent, m: seq<string>)
    requires m == Flag(e.ctrl, "ctrl") + Flag(e.meta, "meta") + Flag(e.alt, "alt") + Flag(e.shift, "shift")
    ensures ("ctrl" in m <==> e.ctrl) && ("meta" in m <==> e.meta)
    ensures ("alt" in m <==> e.alt) && ("shift" in m <==> e.shift)
  {
    assert forall x :: x in m ==> x in {"ctrl", "meta", "alt", "shift"};
  }

  /** Two ranked runs, every rank of the first below `cut` and none of the second, join into a ranked run. */
  lemma RankedJoin(front: seq<string>, back: seq<string>, cut: nat)
    requires RankedModifiers(front) && RankedModifiers(back)
    requires forall i :: 0 <= i < |front| ==> ModifierRank(front[i]) < cut
    requires forall i :: 0 <= i < |back| ==> cut <= ModifierRank(back[i])
    ensures RankedModifiers(front + back)
  {
    var m := front + back;
    forall i, j | 0 <= i < j < |m| ensures ModifierRank(m[i]) < ModifierRank(m[j]) {
      if j < |front| {
        assert m[i] == front[i] && m[j] == front[j];
      } else if i >= |front| {
        assert m[i] == back[i - |front|] && m[j] == back[j - |front|];
      } else {
        assert m[i] == front[i] && m[j] == back[j - |front|];
      }
    }
  }

  /** The token parts: the held modifiers in ranked order, then the lower-cased key unless it is a modifier. */
  function TokenParts(e: KeyEvent): (r: seq<string>)
    ensures |r| == HeldCount(e) + if IsModifierKey(Lower(e.key)) then 0 else 1
    ensures RankedModifiers(r[..HeldCount(e)])
    ensures ("ctrl" in r[..HeldCount(e)] <==> e.ctrl) && ("meta" in r[..HeldCount(e)] <==> e.meta)
    ensures ("alt" in r[..HeldCount(e)] <==> e.alt) && ("shift" in r[..HeldCount(e)] <==> e.shift)
    ensures !IsModifierKey(Lower(e.key)) ==> r[|r| - 1] == Lower(e.key)
  {
    var k := Lower(e.key);
    var m := ModifierParts(e);
    assert (m + if IsModifierKey(k) then [] else [k])[..HeldCount(e)] == m;
    m + if IsModifierKey(k) then [] else [k]
  }

  function Token(e: KeyEvent): string
  {
    Join(TokenParts(e), "+")
  }

  /** Ctrl with K makes the token `ctrl+k`, whatever the key's case. */
  lemma CtrlKToken()
    ensures Token(KeyEvent(true, false, false, false, "K")) == "ctrl+k"
  {
    assert Lower("K") == "k";
    assert TokenParts(KeyEvent(true, false, false, false, "K")) == ["ctrl", "k"];
  }

  /** Pressing a modifier alone yields only the modifier names. */
  lemma ModifierAloneToken()
    ensures TokenParts(KeyEvent(true, false, false, false, "Control")) == ["ctrl"]
  {
    assert Lower("Control") == "control";
  }

  /** The shortcuts whose sequence ends the typed text, in registration order. */
  function Hits(list: seq<Shortcut>, typed: string): seq<Shortcut>
  {
    Filter(list, (s: Shortcut) => EndsWith(typed, s.sequence))
  }

  /** Whether some sequence could still be completed from the typed text. */
  predicate AnyPrefix(list: seq<Shortcut>, typed: string)
  {
    exists s :: s in list && StartsWith(s.sequence, typed)
  }

  /** The buffer after the timeout check and the new token. */
  function Grown(buffer: seq<string>, lastKeyTime: int, now: int, e: KeyEvent): seq<string>
  {
    (if now - lastKeyTime > ChordTimeout then [] else buffer) + [Token(e)]
  }

  /** The buffered tokens joined by spaces and normalised, as matched against the sequences. */
  function Typed(buffer: seq<string>): string
  {
    Normalize(Join(buffer, " "))
  }

  class Provider {
    var shortcuts: seq<Shortcut>
    var buffer: seq<string>
    var lastKeyTime: int

    constructor()
      ensures shortcuts == [] && buffer == [] && lastKeyTime == 0
    {
      shortcuts := [];
      buffer := [];
      lastKeyTime := 0;
    }

    method Register(s: Shortcut)
      modifies this
      ensures shortcuts == RegisterIn(old(shortcuts), s)
      ensures buffer == old(buffer) && lastKeyTime == old(lastKeyTime)
    {
      if exists i :: 0 <= i < |shortcuts| && shortcuts[i].sequence == Normalize(s.sequence) {
        return;
      }
      shortcuts := shortcuts + [s.(sequence := Normalize(s.sequence))];
    }

    /** The mount effect: the default shortcuts registered in order. */
    method RegisterDefaults()
      modifies this
      ensures shortcuts == RegisterAll(old(shortcuts), Defaults)
      ensures buffer == old(buffer) && lastKeyTime == old(lastKeyTime)
    {
      var i := 0;
      while i < |Defaults|
        invariant 0 <= i <= |Defaults|
        invariant RegisterAll(shortcuts, Defaults[i..]) == RegisterAll(old(shortcuts), Defaults)
        invariant buffer == old(buffer) && lastKeyTime == old(lastKeyTime)
      {
        assert Defaults[i..][1..] == Defaults[i + 1..];
        Register(Defaults[i]);
        i := i + 1;
      }
    }

    method Unregister(sequence: string)
      modifies this
      ensures shortcuts == UnregisterIn(old(shortcuts), sequence)
      ensures buffer == old(buffer) && lastKeyTime == old(lastKeyTime)
    {
      shortcuts := Filter(shortcuts, (x: Shortcut) => x.sequence != Normalize(sequence));
    }

    /**
     * `keydown` at time `now`: returns the handler that fires, if any. A
     * sequence ending the normalised buffer fires (the last registered such)
     * and empties the buffer; otherwise the buffer survives only while some
     * sequence starts with it.
     */
    method KeyDown(e: KeyEvent, now: int) returns (fired: Option<nat>)
      modifies this
      ensures lastKeyTime == now && shortcuts == old(shortcuts)
      ensures var grown := Grown(old(buffer), old(lastKeyTime), now, e);
              var hits := Hits(shortcuts, Typed(grown));
              (fired.Some? <==> hits != [])
              && (fired.Some? ==> fired.value == hits[|hits| - 1].handler && buffer == [])
              && (fired.None? ==> buffer == if AnyPrefix(shortcuts, Typed(grown)) then grown else [])
    {
      Push(e, now);
      fired := Settle(Typed(buffer));
    }

    /** The buffer lapses after the chord timeout, then takes the event's token. */
    method Push(e: KeyEvent, now: int)
      modifies this
      ensures buffer == Grown(old(buffer), old(lastKeyTime), now, e)
      ensures lastKeyTime == now && shortcuts == old(shortcuts)
    {
      if now - lastKeyTime > ChordTimeout {
        buffer := [];
      }
      lastKeyTime := now;
      buffer := buffer + [Token(e)];
    }

    /**
     * The match against the typed text: the last sequence ending it fires and
     * the buffer empties; with no hit the buffer is kept only while some
     * sequence starts with the typed text.
     */
    method Settle(typed: string) returns (fired: Option<nat>)
      modifies this
      ensures lastKeyTime == old(lastKeyTime) && shortcuts == old(shortcuts)
      ensures var hits := Hits(shortcuts, typed);
              (fired.Some? <==> hits != [])
              && (fired.Some? ==> fired.value == hits[|hits| - 1].handler && buffer == [])
              && (fired.None? ==> buffer == if AnyPrefix(shortcuts, typed) then old(buffer) else [])
    {
      var hits := Hits(shortcuts, typed);
      if |hits| > 0 {
        fired := Some(hits[|hits| - 1].handler);
        buffer := [];
        return;
      }
      fired := None;
      if !AnyPrefix(shortcuts, typed) {
        buffer := [];
      }
    }
  }

  /** A sequence that ends the typed buffer always makes something fire. */
  lemma MatchingSequenceFires(list: seq<Shortcut>, typed: string, k: int)
    requires 0 <= k < |list| && EndsWith(typed, list[k].sequence)
    ensures Hits(list, typed) != []
  {
    assert list[k] in Hits(list, typed);
  }
}
