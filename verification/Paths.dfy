/**
 Textual path handling of the macOS collector: splitting at slashes, resolving
 `.` and `..`, and taking the data volume's prefix off.
 */
module Paths {
  import opened Basics

  const SLASH: Byte := 47
  const DOT: Byte := 46
  const ROOT: Text := [SLASH]

  /** The bytes of "System", "Volumes" and "Data". */
  const SYSTEM: Text := [83, 121, 115, 116, 101, 109]
  const VOLUMES: Text := [86, 111, 108, 117, 109, 101, 115]
  const DATA: Text := [68, 97, 116, 97]
  /** "/System/Volumes/Data" */
  const DATA_VOLUME: Text := [SLASH] + SYSTEM + [SLASH] + VOLUMES + [SLASH] + DATA

  /** The parts between slashes. A path without a slash is one part. */
  function Split(path: Text): (parts: seq<Text>)
    ensures |parts| >= 1
    ensures forall i | 0 <= i < |parts| :: SLASH !in parts[i]
  {
    if path == [] then [[]] else Began(path[0], Split(path[1..]))
  }

  /** The parts of a path that begins with `first`, given the parts of the rest. */
  function Began(first: Byte, rest: seq<Text>): (parts: seq<Text>)
    requires |rest| >= 1
    ensures |parts| >= 1
    ensures (forall i | 0 <= i < |rest| :: SLASH !in rest[i]) ==> forall i | 0 <= i < |parts| :: SLASH !in parts[i]
  {
    if first == SLASH then [[]] + rest else [[first] + rest[0]] + rest[1..]
  }

  function FirstComponent(path: Text): Text {
    Split(path)[0]
  }

  function LastComponent(path: Text): Text {
    var parts := Split(path);
    parts[|parts| - 1]
  }

  /** What one part does to the stack of names resolved so far. */
  function Push(stack: seq<Text>, part: Text): seq<Text> {
    if part == [] || part == [DOT] then stack
    else if part == [DOT, DOT] then if stack == [] then [] else stack[..|stack| - 1]
    else stack + [part]
  }

  function Fold(stack: seq<Text>, parts: seq<Text>): seq<Text>
    decreases |parts|
  {
    if parts == [] then stack else Fold(Push(stack, parts[0]), parts[1..])
  }

  /** Each name behind a slash. No names at all is the root. */
  function Slashed(names: seq<Text>): Text {
    if names == [] then [] else Slashed(names[..|names| - 1]) + [SLASH] + names[|names| - 1]
  }

  function Render(names: seq<Text>): Text {
    if names == [] then ROOT else Slashed(names)
  }

  function ResolveDots(path: Text): Text {
    Render(Fold([], Split(path)))
  }

  predicate OnDataVolume(path: Text) {
    DATA_VOLUME <= path && |path| > |DATA_VOLUME| && path[|DATA_VOLUME|] == SLASH
  }

  function StripDataVolume(path: Text): Text {
    if OnDataVolume(path) then path[|DATA_VOLUME|..] else path
  }

  function Normalized(path: Text): Text {
    ResolveDots(StripDataVolume(path))
  }

  predicate IsAbsolute(path: Text) {
    |path| > 0 && path[0] == SLASH
  }

  /** A part that names something: not empty, not `.` and not `..`. */
  predicate PlainName(part: Text) {
    part != [] && part != [DOT] && part != [DOT, DOT] && SLASH !in part
  }

  predicate PlainNames(names: seq<Text>) {
    forall i | 0 <= i < |names| :: PlainName(names[i])
  }

  /** An absolute path with no empty, `.` or `..` component. */
  predicate Canonical(path: Text) {
    IsAbsolute(path) && (path == ROOT || PlainNames(Split(path[1..])))
  }

  function Under(base: Text, name: Text): Text {
    base + [SLASH] + name
  }

  // ---- Splitting ----

  lemma {:induction false} SplitUnder(a: Text, b: Text)
    ensures Split(Under(a, b)) == Split(a) + Split(b)
  {
    if a == [] {
      assert Under(a, b)[1..] == b;
      assert Split([]) == [[]];
    } else {
      hide Began;
      SplitUnder(a[1..], b);
      assert Under(a, b)[1..] == Under(a[1..], b);
      BeganConcat(a[0], Split(a[1..]), Split(b));
    }
  }

  lemma BeganConcat(first: Byte, rest: seq<Text>, more: seq<Text>)
    requires |rest| >= 1
    ensures Began(first, rest + more) == Began(first, rest) + more
  {
    if first == SLASH {
      ConcatAssociates([[]], rest, more);
    } else {
      assert (rest + more)[1..] == rest[1..] + more;
      ConcatAssociates([[first] + rest[0]], rest[1..], more);
    }
  }

  lemma {:induction false} SplitName(name: Text)
    requires SLASH !in name
    ensures Split(name) == [name]
  {
    if name != [] {
      SplitName(name[1..]);
      assert [name[0]] + name[1..] == name;
    }
  }

  lemma {:induction false} SplitSlashed(names: seq<Text>)
    requires forall i | 0 <= i < |names| :: SLASH !in names[i]
    ensures Split(Slashed(names)) == [[]] + names
  {
    if names != [] {
      var front, last := names[..|names| - 1], names[|names| - 1];
      SplitSlashed(front);
      SplitName(last);
      assert Slashed(names) == Under(Slashed(front), last);
      SplitUnder(Slashed(front), last);
      assert names == front + [last];
    }
  }

  /** A canonical path's names are its split, without the empty part before the first slash. */
  lemma SplitAbsolute(path: Text)
    requires IsAbsolute(path)
    ensures Split(path) == [[]] + Split(path[1..])
  {
  }

  // ---- Resolving ----

  lemma {:induction false} FoldConcat(stack: seq<Text>, a: seq<Text>, b: seq<Text>)
    ensures Fold(stack, a + b) == Fold(Fold(stack, a), b)
    decreases |a|
  {
    if a == [] {
      assert a + b == b;
    } else {
      FoldConcat(Push(stack, a[0]), a[1..], b);
      assert (a + b)[1..] == a[1..] + b;
    }
  }

  lemma {:induction false} FoldPlain(stack: seq<Text>, names: seq<Text>)
    requires PlainNames(names)
    ensures Fold(stack, names) == stack + names
    decreases |names|
  {
    if names == [] {
      assert stack + names == stack;
    } else {
      FoldPlain(stack + [names[0]], names[1..]);
      assert stack + [names[0]] + names[1..] == stack + names;
    }
  }

  lemma {:induction false} FoldStaysPlain(stack: seq<Text>, parts: seq<Text>)
    requires PlainNames(stack)
    requires forall i | 0 <= i < |parts| :: SLASH !in parts[i]
    ensures PlainNames(Fold(stack, parts))
    decreases |parts|
  {
    if parts != [] {
      FoldStaysPlain(Push(stack, parts[0]), parts[1..]);
    }
  }

  lemma RenderPlain(names: seq<Text>)
    requires PlainNames(names)
    ensures Canonical(Render(names))
    ensures Fold([], Split(Render(names))) == names
  {
    if names == [] {
      assert Split(ROOT) == [[], []];
      assert Fold([], [[], []]) == Fold([], [[]]) == [];
    } else {
      SplitSlashed(names);
      SlashedStarts(names);
      SplitAbsolute(Slashed(names));
      var rest := Split(Slashed(names)[1..]);
      assert ([[]] + rest)[1..] == ([[]] + names)[1..];
      FoldPlain([], names);
      var all := [[]] + names;
      assert all[1..] == names;
      assert Push([], []) == [];
      assert Fold([], all) == Fold([], names);
    }
  }

  lemma {:induction false} SlashedStarts(names: seq<Text>)
    requires names != []
    ensures IsAbsolute(Slashed(names))
  {
    var front := names[..|names| - 1];
    if front != [] {
      SlashedStarts(front);
    }
  }

  /** Whatever comes in, the loop leaves an absolute path without `.` and `..`. */
  lemma ResolvedIsCanonical(path: Text)
    ensures Canonical(ResolveDots(path))
  {
    FoldStaysPlain([], Split(path));
    RenderPlain(Fold([], Split(path)));
  }

  lemma NormalizedIsCanonical(path: Text)
    ensures Canonical(Normalized(path))
  {
    ResolvedIsCanonical(StripDataVolume(path));
  }

  /** A canonical path is rendered from its own names. */
  lemma {:induction false} SlashedSplit(rest: Text)
    ensures Slashed(Split(rest)) == [SLASH] + rest
  {
    // Peel the last part off.
    hide Split, Slashed, LastSlash;
    if SLASH !in rest {
      SplitName(rest);
      SlashedMore([], rest);
      assert [] + [rest] == [rest];
    } else {
      var i := LastSlash(rest);
      var a, b := rest[..i], rest[i + 1..];
      assert rest == Under(a, b);
      SplitUnder(a, b);
      SplitName(b);
      SlashedSplit(a);
      SlashedMore(Split(a), b);
    }
  }

  lemma SlashedMore(names: seq<Text>, last: Text)
    ensures Slashed(names + [last]) == Slashed(names) + [SLASH] + last
    ensures Slashed([]) == []
  {
    assert (names + [last])[..|names|] == names;
  }

  function LastSlash(path: Text): (i: nat)
    requires SLASH in path
    ensures i < |path| && path[i] == SLASH && SLASH !in path[i + 1..]
  {
    var last := |path| - 1;
    if path[last] == SLASH then last
    else
      assert path == path[..last] + [path[last]];
      var i := LastSlash(path[..last]);
      assert forall j | i + 1 <= j < |path| :: path[j] != SLASH by {
        forall j | i + 1 <= j < |path| ensures path[j] != SLASH {
          if j < last {
            assert path[..last][i + 1..][j - (i + 1)] == path[j];
          }
        }
      }
      i
  }

  /** The dot-resolving loop changes a path exactly when it is not canonical yet. */
  lemma ResolveFixpoint(path: Text)
    ensures ResolveDots(path) == path <==> Canonical(path)
  {
    ResolvedIsCanonical(path);
    if Canonical(path) {
      if path == ROOT {
        RenderPlain([]);
      } else {
        var names := Split(path[1..]);
        SplitAbsolute(path);
        var all := [[]] + names;
        assert all[1..] == names;
        assert Fold([], all) == Fold([], names);
        FoldPlain([], names);
        SlashedSplit(path[1..]);
        assert [SLASH] + path[1..] == path;
        assert Split(path) == all && [] + names == names;
      }
    }
  }

  /** Resolving the directory first loses nothing: `..` in the name still climbs out of it. */
  lemma ResolveComposes(a: Text, b: Text)
    ensures ResolveDots(Under(ResolveDots(a), b)) == ResolveDots(Under(a, b))
  {
    var names := Fold([], Split(a));
    FoldStaysPlain([], Split(a));
    RenderPlain(names);
    SplitUnder(ResolveDots(a), b);
    SplitUnder(a, b);
    FoldConcat([], Split(ResolveDots(a)), Split(b));
    FoldConcat([], Split(a), Split(b));
  }

  /**
   What each part of a path does, which says all of what resolving is: an empty one or `.` nothing, `..`
   takes the last name away if there is one, and a name goes under what is before it.
   */
  lemma ResolveTells(path: Text, name: Text)
    requires PlainName(name)
    ensures ResolveDots([]) == ResolveDots([DOT]) == ResolveDots([DOT, DOT]) == ROOT
    ensures ResolveDots(Under([], [DOT, DOT])) == ROOT
    ensures ResolveDots(name) == ResolveDots(Under([], name))
    ensures ResolveDots(Under(path, [])) == ResolveDots(path)
    ensures ResolveDots(Under(path, [DOT])) == ResolveDots(path)
    ensures ResolveDots(Under(path, name))
         == Under(if ResolveDots(path) == ROOT then [] else ResolveDots(path), name)
    ensures ResolveDots(Under(Under(path, name), [DOT, DOT])) == ResolveDots(path)
  {
    hide Split, Fold, Slashed;
    FirstPart([]);
    FirstPart([DOT]);
    FirstPart([DOT, DOT]);
    FirstPart(name);
    LastPart(path, []);
    LastPart(path, [DOT]);
    LastPart(path, name);
    LastPart(Under(path, name), [DOT, DOT]);
    LastPart([], name);
    LastPart([], [DOT, DOT]);
    var names := Fold([], Split(path));
    FoldStaysPlain([], Split(path));
    assert (names + [name])[..|names|] == names;
    SlashedMore(names, name);
    SlashedMore([], name);
    assert [] + [name] == [name];
    if names != [] {
      SlashedIsNotRoot(names);
    }
  }

  /** The names a path of one part resolves to. */
  lemma FirstPart(part: Text)
    requires SLASH !in part
    ensures Fold([], Split(part)) == Push([], part)
  {
    SplitName(part);
    assert Fold([], [part]) == Fold(Push([], part), [part][1..]);
  }

  /** A longer path's last part is put on the names before it. */
  lemma LastPart(path: Text, part: Text)
    requires SLASH !in part
    ensures Fold([], Split(Under(path, part))) == Push(Fold([], Split(path)), part)
  {
    SplitUnder(path, part);
    SplitName(part);
    FoldConcat([], Split(path), [part]);
    var stack := Fold([], Split(path));
    assert Fold(stack, [part]) == Fold(Push(stack, part), [part][1..]);
  }

  lemma SlashedIsNotRoot(names: seq<Text>)
    requires PlainNames(names) && names != []
    ensures Slashed(names) != ROOT
  {
    var last := names[|names| - 1];
    assert last != [] && |Slashed(names)| >= 1 + |last|;
  }

  /** The prefix is taken off just where it is spelled out, with something behind it. */
  lemma NormalizeTells(path: Text)
    ensures forall rest :: path == Under(DATA_VOLUME, rest) ==> Normalized(path) == ResolveDots([SLASH] + rest)
    ensures (forall rest :: path != Under(DATA_VOLUME, rest)) ==> Normalized(path) == ResolveDots(path)
  {
    if OnDataVolume(path) {
      var rest := path[|DATA_VOLUME| + 1..];
      assert path == Under(DATA_VOLUME, rest);
      assert path[|DATA_VOLUME|..] == [SLASH] + rest;
    }
    forall rest | path == Under(DATA_VOLUME, rest) ensures Normalized(path) == ResolveDots([SLASH] + rest) {
      assert path[|DATA_VOLUME|] == SLASH && DATA_VOLUME <= path;
      assert path[|DATA_VOLUME|..] == [SLASH] + rest;
    }
  }

  /** Normalizing leaves just the canonical paths that do not spell the data volume as they are. */
  lemma NormalizeFixpoint(path: Text)
    ensures Normalized(path) == path <==> Canonical(path) && forall rest :: path != Under(DATA_VOLUME, rest)
  {
    SpelledOut(path);
    NormalizedIsCanonical(path);
    if !Canonical(path) {
    } else if OnDataVolume(path) {
      var rest := StripDataVolume(path);
      NormalizedShrinks(rest);
    } else {
      ResolveFixpoint(path);
    }
  }

  lemma SpelledOut(path: Text)
    ensures OnDataVolume(path) <==> exists rest :: path == Under(DATA_VOLUME, rest)
  {
    if OnDataVolume(path) {
      assert path == Under(DATA_VOLUME, path[|DATA_VOLUME| + 1..]);
    }
  }

  /** Resolving never makes an absolute path longer. */
  lemma NormalizedShrinks(path: Text)
    requires IsAbsolute(path)
    ensures |ResolveDots(path)| <= |path|
  {
    SplitAbsolute(path);
    var parts := Split(path[1..]);
    SlashedSplit(path[1..]);
    var all := [[]] + parts;
    assert all[1..] == parts;
    assert Fold([], all) == Fold([], parts);
    FoldShrinks([], parts);
    assert [] + parts == parts;
  }

  lemma {:induction false} SlashedConcat(a: seq<Text>, b: seq<Text>)
    ensures Slashed(a + b) == Slashed(a) + Slashed(b)
    decreases |b|
  {
    if b == [] {
      assert a + b == a;
    } else {
      var front := b[..|b| - 1];
      SlashedConcat(a, front);
      assert (a + b)[..|a + b| - 1] == a + front;
    }
  }

  lemma {:induction false} FoldShrinks(stack: seq<Text>, parts: seq<Text>)
    ensures |Slashed(Fold(stack, parts))| <= |Slashed(stack + parts)|
    decreases |parts|
  {
    if parts == [] {
      assert stack + parts == stack;
    } else {
      var next := Push(stack, parts[0]);
      FoldShrinks(next, parts[1..]);
      SlashedConcat(next, parts[1..]);
      SlashedConcat(stack, parts);
      SlashedConcat([parts[0]], parts[1..]);
      assert [parts[0]] + parts[1..] == parts;
      assert |Slashed(next)| <= |Slashed(stack)| + |Slashed([parts[0]])| by {
        if next == stack + [parts[0]] {
          SlashedConcat(stack, [parts[0]]);
        }
      }
    }
  }

  /** A canonical path spelled through the data volume normalizes to itself. */
  lemma DataVolumeSpelling(path: Text)
    requires Canonical(path)
    ensures Normalized(DATA_VOLUME + path) == path
  {
    assert (DATA_VOLUME + path)[|DATA_VOLUME|..] == path;
    ResolveFixpoint(path);
  }

  lemma DataVolumeIsCanonical() returns (names: seq<Text>)
    ensures PlainNames(names) && Slashed(names) == DATA_VOLUME
  {
    names := [SYSTEM, VOLUMES, DATA];
    assert names[..2][..1] == [SYSTEM] && names[..2] == [SYSTEM, VOLUMES];
    assert Slashed([SYSTEM]) == Slashed([]) + [SLASH] + SYSTEM by { assert [SYSTEM][..0] == []; }
    assert Slashed([SYSTEM, VOLUMES]) == Slashed([SYSTEM]) + [SLASH] + VOLUMES by {
      assert [SYSTEM, VOLUMES][..1] == [SYSTEM];
    }
  }

  /** Plain names behind the data volume's spelling are a canonical path. */
  lemma BehindDataVolume(name: Text)
    requires PlainName(name)
    ensures Canonical(Under(DATA_VOLUME, name))
  {
    var names := DataVolumeIsCanonical();
    RenderPlain(names + [name]);
    assert (names + [name])[..|names|] == names;
  }

  /**
   The prefix is taken off once. A name spelled through the data volume twice keeps one
   spelling, so the whole function is not idempotent.
   */
  lemma NormalizeIsNotIdempotent(name: Text)
    requires PlainName(name)
    ensures Normalized(DATA_VOLUME + Under(DATA_VOLUME, name)) == Under(DATA_VOLUME, name)
    ensures Normalized(Under(DATA_VOLUME, name)) == Under([], name)
  {
    BehindDataVolume(name);
    DataVolumeSpelling(Under(DATA_VOLUME, name));
    RenderPlain([name]);
    assert Slashed([name]) == Under([], name) by { assert [name][..0] == []; }
    DataVolumeSpelling(Under([], name));
    assert DATA_VOLUME + Under([], name) == Under(DATA_VOLUME, name);
  }

  // ---- The loop itself ----

  /** The stack loop of the recorder, then the loop that writes each name behind a slash. */
  method Normalize(path: Text) returns (resolved: Text)
    ensures resolved == Normalized(path)
    ensures Canonical(resolved)
  {
    var source := StripDataVolume(path);
    var pieces := Split(source);
    var parts: seq<Text> := [];
    var i := 0;
    while i < |pieces|
      invariant 0 <= i <= |pieces|
      invariant Fold([], pieces) == Fold(parts, pieces[i..])
    {
      var part := pieces[i];
      if part == [] || part == [DOT] {
      } else if part == [DOT, DOT] {
        if parts != [] {
          parts := parts[..|parts| - 1];
        }
      } else {
        parts := parts + [part];
      }
      i := i + 1;
    }
    resolved := [];
    var j := 0;
    while j < |parts|
      invariant 0 <= j <= |parts|
      invariant resolved == Slashed(parts[..j])
    {
      resolved := resolved + [SLASH] + parts[j];
      j := j + 1;
      assert parts[..j][..j - 1] == parts[..j - 1];
    }
    assert parts[..|parts|] == parts;
    if resolved == [] {
      assert parts == [] by {
        if parts != [] { SlashedStarts(parts); }
      }
      resolved := [SLASH];
    }
    NormalizedIsCanonical(path);
  }
}
