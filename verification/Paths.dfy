/** Cleaning and joining of slash-separated paths, as `filepath.Clean` and `filepath.Join` do it. */
module Paths {
  datatype Path = Path(rooted: bool, segments: seq<string>)

  function Split(text: string): (segments: seq<string>)
    ensures segments != []
  {
    if text == "" then [""]
    else
      var rest := Split(text[1..]);
      if text[0] == '/' then [""] + rest else [[text[0]] + rest[0]] + rest[1..]
  }

  function Glue(segments: seq<string>): string
    requires segments != []
  {
    if |segments| == 1 then segments[0] else segments[0] + "/" + Glue(segments[1..])
  }

  /** One more segment: empty ones and dots vanish, two dots go up where there is something above. */
  function Extend(path: Path, segment: string): Path {
    var n := |path.segments|;
    if segment == "" || segment == "." then path
    else if segment != ".." then path.(segments := path.segments + [segment])
    else if n > 0 && path.segments[n - 1] != ".." then path.(segments := path.segments[..n - 1])
    else if path.rooted then path
    else path.(segments := path.segments + [segment])
  }

  function Walk(path: Path, segments: seq<string>): Path {
    if segments == [] then path
    else Extend(Walk(path, segments[..|segments| - 1]), segments[|segments| - 1])
  }

  function Parse(text: string): Path {
    Walk(Path(text != "" && text[0] == '/', []), Split(text))
  }

  function Render(path: Path): string {
    if path.segments == [] then if path.rooted then "/" else "."
    else (if path.rooted then "/" else "") + Glue(path.segments)
  }

  function Clean(text: string): string {
    Render(Parse(text))
  }

  function Join(dir: string, name: string): string {
    if dir == "" then Clean(name) else Clean(dir + "/" + name)
  }

  /** A name as a directory listing has it. */
  predicate Ordinary(name: string) {
    name != "" && name != "." && name != ".." && '/' !in name
  }

  // ----- Splitting and gluing -----

  lemma {:induction false} SplitPlain(name: string)
    requires '/' !in name
    ensures Split(name) == [name]
  {
    if name != "" {
      assert name[0] in name;
      SplitPlain(name[1..]);
      assert name == [name[0]] + name[1..];
    }
  }

  lemma {:induction false} SplitJoined(dir: string, name: string)
    requires '/' !in name
    ensures Split(dir + "/" + name) == Split(dir) + [name]
  {
    var text := dir + "/" + name;
    if dir == "" {
      assert text[1..] == name;
      SplitPlain(name);
    } else {
      assert text[0] == dir[0] && text[1..] == dir[1..] + "/" + name;
      SplitJoined(dir[1..], name);
    }
  }

  lemma {:induction false} SplitHasNoSlash(text: string)
    ensures forall i :: 0 <= i < |Split(text)| ==> '/' !in Split(text)[i]
  {
    if text != "" {
      SplitHasNoSlash(text[1..]);
    }
  }

  lemma {:induction false} GlueLast(segments: seq<string>)
    requires |segments| > 1
    ensures Glue(segments) == Glue(segments[..|segments| - 1]) + "/" + segments[|segments| - 1]
  {
    var n := |segments| - 1;
    if n > 1 {
      GlueLast(segments[1..]);
      assert segments[1..][..n - 1] == segments[..n][1..];
    }
  }

  lemma {:induction false} SplitGlued(segments: seq<string>)
    requires segments != [] && forall i :: 0 <= i < |segments| ==> '/' !in segments[i]
    ensures Split(Glue(segments)) == segments
  {
    var n := |segments| - 1;
    if n == 0 {
      SplitPlain(segments[0]);
    } else {
      GlueLast(segments);
      SplitGlued(segments[..n]);
      SplitJoined(Glue(segments[..n]), segments[n]);
    }
  }

  // ----- Canonical paths -----

  /** No empty segment, no dot, and two dots only in front of a path that is not rooted. */
  predicate CanonicalAt(path: Path, i: nat)
    requires i < |path.segments|
  {
    var segment := path.segments[i];
    && segment != "" && segment != "." && '/' !in segment
    && (segment == ".." ==> !path.rooted && (i > 0 ==> path.segments[i - 1] == ".."))
  }

  ghost predicate Canonical(path: Path) {
    forall i :: 0 <= i < |path.segments| ==> CanonicalAt(path, i)
  }

  lemma ExtendKeepsCanonical(path: Path, segment: string)
    requires Canonical(path) && '/' !in segment
    ensures Canonical(Extend(path, segment)) && Extend(path, segment).rooted == path.rooted
  {
    var after := Extend(path, segment);
    forall i | 0 <= i < |after.segments| ensures CanonicalAt(after, i) {
      if i < |path.segments| {
        assert CanonicalAt(path, i);
      }
    }
  }

  lemma {:induction false} WalkIsCanonical(rooted: bool, segments: seq<string>)
    requires forall i :: 0 <= i < |segments| ==> '/' !in segments[i]
    ensures Canonical(Walk(Path(rooted, []), segments)) && Walk(Path(rooted, []), segments).rooted == rooted
    decreases segments
  {
    if segments != [] {
      var n := |segments| - 1;
      WalkIsCanonical(rooted, segments[..n]);
      ExtendKeepsCanonical(Walk(Path(rooted, []), segments[..n]), segments[n]);
    }
  }

  lemma ParseIsCanonical(text: string)
    ensures Canonical(Parse(text))
  {
    SplitHasNoSlash(text);
    WalkIsCanonical(text != "" && text[0] == '/', Split(text));
  }

  lemma ExtendRebuilds(path: Path)
    requires Canonical(path) && path.segments != []
    ensures var n := |path.segments| - 1;
      var shorter := path.(segments := path.segments[..n]);
      Canonical(shorter) && Extend(shorter, path.segments[n]) == path
  {
    var n := |path.segments| - 1;
    var shorter := path.(segments := path.segments[..n]);
    forall i | 0 <= i < n ensures CanonicalAt(shorter, i) {
      assert CanonicalAt(path, i);
    }
    assert CanonicalAt(path, n);
    assert path.segments == path.segments[..n] + [path.segments[n]];
  }

  lemma WalkLast(path: Path, segments: seq<string>, last: string)
    ensures Walk(path, segments + [last]) == Extend(Walk(path, segments), last)
  {
    assert (segments + [last])[..|segments|] == segments;
  }

  /** Walking a canonical path's segments rebuilds it. */
  lemma {:induction false} WalkRebuilds(path: Path)
    requires Canonical(path)
    ensures Walk(Path(path.rooted, []), path.segments) == path
    decreases |path.segments|
  {
    if path.segments != [] {
      var n := |path.segments| - 1;
      ExtendRebuilds(path);
      WalkRebuilds(path.(segments := path.segments[..n]));
      WalkLast(Path(path.rooted, []), path.segments[..n], path.segments[n]);
      assert path.segments == path.segments[..n] + [path.segments[n]];
    }
  }

  /** An empty segment in front, as a leading slash leaves it, makes no difference. */
  lemma {:induction false} WalkSkipsLead(path: Path, segments: seq<string>)
    ensures Walk(path, [""] + segments) == Walk(path, segments)
    decreases |segments|
  {
    if segments == [] {
      assert [""] + segments == [] + [""];
      WalkLast(path, [], "");
    } else {
      var n := |segments| - 1;
      WalkSkipsLead(path, segments[..n]);
      WalkLast(path, [""] + segments[..n], segments[n]);
      assert [""] + segments == [""] + segments[..n] + [segments[n]];
    }
  }

  lemma GlueStarts(segments: seq<string>)
    requires segments != [] && segments[0] != ""
    ensures Glue(segments) != "" && Glue(segments)[0] == segments[0][0]
  {}

  lemma ParseNothing(rooted: bool)
    ensures Parse(Render(Path(rooted, []))) == Path(rooted, [])
  {
    if rooted {
      assert "/"[1..] == "";
      WalkSkipsLead(Path(true, []), [""]);
      assert [""][..0] == [];
    } else {
      SplitPlain(".");
      WalkLast(Path(false, []), [], ".");
      assert [] + ["."] == ["."];
    }
  }

  /** What is rendered parses back. */
  lemma ParseRender(path: Path)
    requires Canonical(path)
    ensures Parse(Render(path)) == path
  {
    var text := Render(path);
    if path.segments == [] {
      ParseNothing(path.rooted);
    } else {
      forall i | 0 <= i < |path.segments| ensures '/' !in path.segments[i] {
        assert CanonicalAt(path, i);
      }
      assert CanonicalAt(path, 0);
      assert path.segments[0][0] in path.segments[0];
      SplitGlued(path.segments);
      GlueStarts(path.segments);
      WalkRebuilds(path);
      if path.rooted {
        assert text[1..] == Glue(path.segments);
        WalkSkipsLead(Path(true, []), path.segments);
      } else {
        assert text == Glue(path.segments);
      }
    }
  }

  /** Cleaning twice is cleaning once, and two texts clean to the same path iff they parse to the same. */
  lemma CleanIsIdempotent(text: string, other: string)
    ensures Clean(Clean(text)) == Clean(text)
    ensures Clean(text) == Clean(other) <==> Parse(text) == Parse(other)
  {
    ParseIsCanonical(text);
    ParseIsCanonical(other);
    ParseRender(Parse(text));
    ParseRender(Parse(other));
  }

  /** Joining an ordinary name puts it at the end of the cleaned directory. */
  lemma JoinAppends(dir: string, name: string)
    requires Ordinary(name)
    ensures Parse(Join(dir, name)) == Parse(dir).(segments := Parse(dir).segments + [name])
  {
    var text := if dir == "" then name else dir + "/" + name;
    var rooted := dir != "" && dir[0] == '/';
    if dir == "" {
      SplitPlain(name);
      assert name[0] in name;
      assert [name][..0] == [] && [""][..0] == [];
    } else {
      SplitJoined(dir, name);
      assert (Split(dir) + [name])[..|Split(dir)|] == Split(dir);
    }
    assert Parse(text) == Extend(Parse(dir), name);
    ParseIsCanonical(text);
    ParseRender(Parse(text));
    ParseIsCanonical(dir);
    SplitHasNoSlash(dir);
    WalkIsCanonical(rooted, Split(dir));
  }

  /** A path names its entry, and its directory up to cleaning. */
  lemma JoinIsInjective(dir: string, name: string, dir': string, name': string)
    requires Ordinary(name) && Ordinary(name')
    ensures Join(dir, name) == Join(dir', name') <==> Clean(dir) == Clean(dir') && name == name'
  {
    JoinAppends(dir, name);
    JoinAppends(dir', name');
    CleanIsIdempotent(dir, dir');
    var p, p' := Parse(dir), Parse(dir');
    var q, q' := Parse(Join(dir, name)), Parse(Join(dir', name'));
    if q == q' {
      assert q.segments[..|p.segments|] == p.segments && q'.segments[..|p'.segments|] == p'.segments;
      assert q.segments[|p.segments|] == name && q'.segments[|p'.segments|] == name';
    }
    if p == p' && name == name' {
      CleanIsIdempotent(if dir == "" then name else dir + "/" + name, if dir' == "" then name else dir' + "/" + name');
      JoinIsClean(dir, name);
      JoinIsClean(dir', name');
    }
  }

  /** A joined path is clean, so its text is determined by what it parses to. */
  lemma JoinIsClean(dir: string, name: string)
    ensures Join(dir, name) == Render(Parse(Join(dir, name)))
  {
    var text := if dir == "" then name else dir + "/" + name;
    CleanIsIdempotent(text, text);
  }

  lemma CleanIsNotEmpty(text: string)
    ensures Clean(text) != ""
  {
    ParseIsCanonical(text);
    if Parse(text).segments != [] {
      assert CanonicalAt(Parse(text), 0);
      GlueStarts(Parse(text).segments);
    }
  }

  // ----- Where a path leads -----

  /** One step in a tree of directories: stay, go up, or go down; above the root is the root. */
  function Move(at: seq<string>, segment: string): seq<string> {
    if segment == "" || segment == "." then at
    else if segment != ".." then at + [segment]
    else if at == [] then [] else at[..|at| - 1]
  }

  /** Where the segments lead, from this directory on. */
  function Follow(at: seq<string>, segments: seq<string>): seq<string> {
    if segments == [] then at
    else Move(Follow(at, segments[..|segments| - 1]), segments[|segments| - 1])
  }

  lemma FollowOneMore(at: seq<string>, segments: seq<string>, segment: string)
    ensures Follow(at, segments + [segment]) == Move(Follow(at, segments), segment)
  {
    assert (segments + [segment])[..|segments|] == segments;
  }

  lemma {:induction false} RootedLeadsToItself(segments: seq<string>)
    requires Canonical(Path(true, segments))
    ensures Follow([], segments) == segments
  {
    if segments != [] {
      var n := |segments| - 1;
      ExtendRebuilds(Path(true, segments));
      RootedLeadsToItself(segments[..n]);
      assert CanonicalAt(Path(true, segments), n);
    }
  }

  /** Dropping what a segment makes superfluous changes nothing about where the path leads. */
  lemma ExtendLeads(path: Path, segment: string, at: seq<string>)
    requires Canonical(path) && (path.rooted ==> at == [])
    ensures Follow(at, Extend(path, segment).segments) == Move(Follow(at, path.segments), segment)
  {
    var n := |path.segments|;
    FollowOneMore(at, path.segments, segment);
    if segment == ".." && path.rooted {
      RootedLeadsToItself(path.segments);
    }
    if segment == ".." && n > 0 {
      assert CanonicalAt(path, n - 1);
    }
  }

  lemma {:induction false} WalkLeads(rooted: bool, segments: seq<string>, at: seq<string>)
    requires (rooted ==> at == []) && forall i :: 0 <= i < |segments| ==> '/' !in segments[i]
    ensures Follow(at, Walk(Path(rooted, []), segments).segments) == Follow(at, segments)
    decreases |segments|
  {
    if segments != [] {
      var n := |segments| - 1;
      WalkLeads(rooted, segments[..n], at);
      WalkIsCanonical(rooted, segments[..n]);
      ExtendLeads(Walk(Path(rooted, []), segments[..n]), segments[n], at);
    }
  }

  /** A cleaned path leads where the path as it was written leads: from the root if it is rooted, else from anywhere. */
  lemma CleanLeadsTheSameWay(text: string, at: seq<string>)
    requires text != "" && text[0] == '/' ==> at == []
    ensures Follow(at, Split(Clean(text))) == Follow(at, Split(text))
    ensures Parse(Clean(text)).rooted == (text != "" && text[0] == '/')
  {
    var rooted := text != "" && text[0] == '/';
    SplitHasNoSlash(text);
    SplitHasNoSlash(Clean(text));
    ParseIsCanonical(text);
    ParseRender(Parse(text));
    WalkIsCanonical(rooted, Split(text));
    WalkIsCanonical(Clean(text) != "" && Clean(text)[0] == '/', Split(Clean(text)));
    WalkLeads(rooted, Split(text), at);
    WalkLeads(rooted, Split(Clean(text)), at);
  }

  /** And joining leads to the entry of that name in the directory. */
  lemma JoinLeadsToTheEntry(dir: string, name: string, at: seq<string>)
    requires Ordinary(name) && (dir != "" && dir[0] == '/' ==> at == [])
    ensures Follow(at, Split(Join(dir, name))) == Follow(at, Split(dir)) + [name]
  {
    var text := if dir == "" then name else dir + "/" + name;
    if dir == "" {
      assert name[0] in name;
      SplitPlain(name);
      assert [""][..0] == [] && [name][..0] == [];
    } else {
      SplitJoined(dir, name);
      FollowOneMore(at, Split(dir), name);
    }
    CleanLeadsTheSameWay(text, at);
  }
}
