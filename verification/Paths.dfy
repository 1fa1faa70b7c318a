// Relative paths inside a connected root, on POSIX: what is accepted, and where it leads.
module Paths {
  import opened Wrappers

  datatype PathError = InvalidRelativePath | AbsolutePathRejected | PathTraversalRejected
  datatype Normalized = Accepted(path: string) | Rejected(error: PathError)

  // ---- segments ----

  function Split(s: string): (segments: seq<string>)
    ensures |segments| > 0
    decreases |s|
  {
    if s == [] then [""]
    else
      var rest := Split(s[1..]);
      if s[0] == '/' then [""] + rest else [[s[0]] + rest[0]] + rest[1..]
  }

  function Join(segments: seq<string>): string
    requires |segments| > 0
  {
    if |segments| == 1 then segments[0] else segments[0] + "/" + Join(segments[1..])
  }

  predicate NoSlash(segment: string) {
    forall i :: 0 <= i < |segment| ==> segment[i] != '/'
  }

  lemma {:induction false} SplitSegments(s: string)
    ensures forall i :: 0 <= i < |Split(s)| ==> NoSlash(Split(s)[i])
    ensures Join(Split(s)) == s
  {
    if s != [] {
      SplitSegments(s[1..]);
      var rest := Split(s[1..]);
      if s[0] == '/' {
        assert ([""] + rest)[1..] == rest;
        assert s == "/" + s[1..];
      } else {
        assert [s[0]] + Join(rest) == s;
        if |rest| > 1 {
          assert ([[s[0]] + rest[0]] + rest[1..])[1..] == rest[1..];
          assert Join(Split(s)) == [s[0]] + rest[0] + "/" + Join(rest[1..]);
        }
      }
    }
  }

  lemma {:induction false} JoinSegments(segments: seq<string>)
    requires |segments| > 0 && forall i :: 0 <= i < |segments| ==> NoSlash(segments[i])
    ensures Split(Join(segments)) == segments
    decreases |segments|
  {
    if |segments| == 1 {
      SplitPlain(segments[0]);
    } else {
      JoinSegments(segments[1..]);
      SplitPrefix(segments[0], Join(segments[1..]));
      assert segments == [segments[0]] + segments[1..];
      assert segments[0] + "/" + Join(segments[1..]) == segments[0] + ("/" + Join(segments[1..]));
    }
  }

  lemma {:induction false} SplitPlain(s: string)
    requires NoSlash(s)
    ensures Split(s) == [s]
  {
    if s != [] {
      SplitPlain(s[1..]);
      assert s == [s[0]] + s[1..];
    }
  }

  lemma {:induction false} SplitPrefix(s: string, rest: string)
    requires NoSlash(s)
    ensures Split(s + ("/" + rest)) == [s] + Split(rest)
  {
    var t := s + ("/" + rest);
    if s == [] {
      assert t == "/" + rest && t[1..] == rest;
    } else {
      assert t[1..] == s[1..] + ("/" + rest);
      SplitPrefix(s[1..], rest);
      assert s == [s[0]] + s[1..];
      assert ([s[1..]] + Split(rest))[1..] == Split(rest);
    }
  }

  // ---- path.posix.normalize ----

  // Drops empty and dot segments; a dot-dot segment takes the one before it away, or stays in front
  // of a relative path.
  function Fold(segments: seq<string>, absolute: bool): seq<string> {
    if segments == [] then []
    else
      var before, last := Fold(segments[..|segments| - 1], absolute), segments[|segments| - 1];
      if last == "" || last == "." then before
      else if last != ".." then before + [last]
      else if before != [] && before[|before| - 1] != ".." then before[..|before| - 1]
      else if absolute then before
      else before + [".."]
  }

  predicate EndsWithSlash(s: string) {
    s != [] && s[|s| - 1] == '/'
  }

  function NormalizeRelative(s: string): string {
    var folded := Fold(Split(s), false);
    if folded == [] then (if EndsWithSlash(s) then "./" else ".")
    else Join(folded) + if EndsWithSlash(s) then "/" else ""
  }

  // path.normalize(path.resolve(root, ...segments)) for an absolute root.
  function Resolve(root: string, path: string): string {
    var folded := Fold(Split(root + "/" + path), true);
    "/" + if folded == [] then "" else Join(folded)
  }

  // ---- normalizeRelativePath ----

  predicate Blank(c: char) {
    c in {' ', '\t', '\n', '\r', '\U{000B}', '\U{000C}', '\U{00A0}', '\U{1680}', '\U{2028}', '\U{2029}', '\U{202F}',
          '\U{205F}', '\U{3000}', '\U{FEFF}'} || '\U{2000}' <= c <= '\U{200A}'
  }

  predicate AllBlank(s: string) {
    forall i :: 0 <= i < |s| ==> Blank(s[i])
  }

  function TrimStart(s: string): string {
    if s != [] && Blank(s[0]) then TrimStart(s[1..]) else s
  }

  function TrimEnd(s: string): string {
    if s != [] && Blank(s[|s| - 1]) then TrimEnd(s[..|s| - 1]) else s
  }

  function Slashed(s: string): (t: string)
    ensures |t| == |s| && forall i :: 0 <= i < |s| ==> t[i] == if s[i] == '\\' then '/' else s[i]
  {
    seq(|s|, i requires 0 <= i < |s| => if s[i] == '\\' then '/' else s[i])
  }

  predicate Letter(c: char) {
    'a' <= c <= 'z' || 'A' <= c <= 'Z'
  }

  predicate HasDrivePrefix(s: string) {
    var t := TrimEnd(TrimStart(s));
    |t| >= 2 && Letter(t[0]) && t[1] == ':'
  }

  predicate InvalidSegment(s: string) {
    AllBlank(s) || s == "." || s == ".." ||
    exists i :: 0 <= i < |s| && s[i] in {'<', '>', ':', '\"', '\\', '|', '?', '*', '\0'}
  }

  function NormalizeRelativePath(value: string, allowRoot: bool): Normalized {
    var trimmed := Slashed(TrimEnd(TrimStart(value)));
    if trimmed == "" then (if allowRoot then Accepted("") else Rejected(InvalidRelativePath))
    else if trimmed[0] == '/' || HasDrivePrefix(trimmed) then Rejected(AbsolutePathRejected)
    else
      var normalized := NormalizeRelative(trimmed);
      if normalized == ".." || "../" <= normalized || "/" <= normalized then Rejected(PathTraversalRejected)
      else if normalized == "." then (if allowRoot then Accepted("") else Rejected(InvalidRelativePath))
      else if exists i :: 0 <= i < |Split(normalized)| && InvalidSegment(Split(normalized)[i]) then Rejected(InvalidRelativePath)
      else Accepted(normalized)
  }

  // ---- what an accepted path is ----

  // A name that stays one entry below its folder.
  predicate PlainSegment(s: string) {
    s != "" && s != "." && s != ".." && NoSlash(s) && '\\' !in s && !AllBlank(s)
  }

  predicate Plain(segments: seq<string>) {
    segments != [] && forall i :: 0 <= i < |segments| ==> PlainSegment(segments[i])
  }

  // One that no supported file system refuses either.
  predicate SafeSegment(s: string) {
    PlainSegment(s) && forall c :: c in s ==> c !in {'<', '>', ':', '\"', '|', '?', '*', '\0'}
  }

  predicate Safe(segments: seq<string>) {
    segments != [] && forall i :: 0 <= i < |segments| ==> SafeSegment(segments[i])
  }

  lemma SafeExactly(s: string)
    requires NoSlash(s)
    ensures SafeSegment(s) <==> !InvalidSegment(s)
  {
    if SafeSegment(s) {
      forall i | 0 <= i < |s| ensures s[i] !in {'<', '>', ':', '\"', '\\', '|', '?', '*', '\0'} { assert s[i] in s; }
    }
    if !InvalidSegment(s) {
      assert s != "";
      forall c | c in s ensures c !in {'<', '>', ':', '\"', '|', '?', '*', '\0'} && c != '\\' {
        var i :| 0 <= i < |s| && s[i] == c;
      }
    }
  }

  lemma AcceptedIsPlain(value: string, allowRoot: bool)
    requires NormalizeRelativePath(value, allowRoot).Accepted? && NormalizeRelativePath(value, allowRoot).path != ""
    ensures Safe(Split(NormalizeRelativePath(value, allowRoot).path)) && Plain(Split(NormalizeRelativePath(value, allowRoot).path))
  {
    var path := NormalizeRelativePath(value, allowRoot).path;
    var segments := Split(path);
    SplitSegments(path);
    forall i | 0 <= i < |segments| ensures SafeSegment(segments[i]) {
      assert !InvalidSegment(segments[i]);
      SafeExactly(segments[i]);
    }
  }

  // ---- where a path leads ----

  // Following a path from a folder: a name goes into it, a dot-dot leaves the innermost one, and
  // nothing leads out of the top.
  function Walk(at: seq<string>, segments: seq<string>): seq<string>
    decreases |segments|
  {
    if segments == [] then at
    else if segments[0] == "" || segments[0] == "." then Walk(at, segments[1..])
    else if segments[0] != ".." then Walk(at + [segments[0]], segments[1..])
    else Walk(if at == [] then [] else at[..|at| - 1], segments[1..])
  }

  // No dot-dot of the path leaves the folder it starts from.
  predicate StaysInside(depth: nat, segments: seq<string>)
    decreases |segments|
  {
    if segments == [] then true
    else if segments[0] == "" || segments[0] == "." then StaysInside(depth, segments[1..])
    else if segments[0] != ".." then StaysInside(depth + 1, segments[1..])
    else depth > 0 && StaysInside(depth - 1, segments[1..])
  }

  lemma {:induction false} WalkLast(at: seq<string>, front: seq<string>, last: string)
    ensures Walk(at, front + [last]) == Walk(Walk(at, front), [last])
    decreases |front|
  {
    if front != [] {
      assert (front + [last])[1..] == front[1..] + [last];
      WalkLast(if front[0] == "" || front[0] == "." then at else if front[0] != ".." then at + [front[0]]
               else if at == [] then [] else at[..|at| - 1], front[1..], last);
    }
  }

  lemma {:induction false} InsideLast(at: seq<string>, front: seq<string>, last: string)
    ensures StaysInside(|at|, front + [last]) <==> StaysInside(|at|, front) && (last == ".." ==> Walk(at, front) != [])
    decreases |front|
  {
    if front == [] {
      assert [last][1..] == [];
    } else {
      assert (front + [last])[1..] == front[1..] + [last];
      if front[0] == "" || front[0] == "." { InsideLast(at, front[1..], last); }
      else if front[0] != ".." { InsideLast(at + [front[0]], front[1..], last); }
      else if at != [] { InsideLast(at[..|at| - 1], front[1..], last); }
    }
  }

  // Whether a folded path still climbs, or consists of names only.
  predicate Descends(segments: seq<string>) {
    forall i :: 0 <= i < |segments| ==> segments[i] != "" && segments[i] != "." && segments[i] != ".."
  }

  // Folding a path leads to the same place from everywhere.
  lemma {:induction false} FoldLeadsThere(at: seq<string>, segments: seq<string>)
    ensures Walk(at, Fold(segments, false)) == Walk(at, segments)
    decreases |segments|
  {
    if segments != [] {
      var front, last := segments[..|segments| - 1], segments[|segments| - 1];
      var before := Fold(front, false);
      assert segments == front + [last];
      FoldLeadsThere(at, front);
      WalkLast(at, front, last);
      WalkLast(at, before, last);
      FoldShape(front);
      if last == ".." && before != [] && before[|before| - 1] != ".." {
        assert before == before[..|before| - 1] + [before[|before| - 1]];
        WalkLast(at, before[..|before| - 1], before[|before| - 1]);
      }
    }
  }

  // A folded path has its dot-dots in front, then names of the path.
  predicate Folded(f: seq<string>, segments: seq<string>) {
    && (forall i :: 0 <= i < |f| ==> f[i] != "" && f[i] != "." && (f[i] == ".." || f[i] in segments))
    && (forall i, j :: 0 <= i < j < |f| && f[j] == ".." ==> f[i] == "..")
  }

  lemma FoldedStep(before: seq<string>, f: seq<string>, front: seq<string>, last: string)
    requires Folded(before, front)
    requires f == before || (before != [] && f == before[..|before| - 1]) ||
             (last != "" && last != "." && f == before + [last] &&
                (last == ".." ==> before == [] || before[|before| - 1] == ".."))
    ensures Folded(f, front + [last])
  {
    forall i | 0 <= i < |f| ensures f[i] != "" && f[i] != "." && (f[i] == ".." || f[i] in front + [last]) {
      if i < |before| { assert f[i] == before[i]; }
    }
    forall i, j | 0 <= i < j < |f| && f[j] == ".." ensures f[i] == ".." {
      assert f[i] == before[i];
      if j < |before| { assert f[j] == before[j]; }
    }
  }

  lemma {:induction false} FoldShape(segments: seq<string>)
    ensures Folded(Fold(segments, false), segments)
    decreases |segments|
  {
    if segments != [] {
      var front, last := segments[..|segments| - 1], segments[|segments| - 1];
      FoldShape(front);
      FoldedStep(Fold(front, false), Fold(segments, false), front, last);
      assert segments == front + [last];
    }
  }

  // A path that stays inside folds to the names it ends at; any other keeps a dot-dot in front.
  lemma {:induction false} FoldIsWalk(segments: seq<string>)
    ensures var f := Fold(segments, false);
      if StaysInside(0, segments) then f == Walk([], segments) && Descends(f) else f != [] && f[0] == ".."
    decreases |segments|
  {
    if segments != [] {
      var front, last := segments[..|segments| - 1], segments[|segments| - 1];
      assert segments == front + [last];
      FoldIsWalk(front);
      WalkLast([], front, last);
      InsideLast([], front, last);
      FoldShape(front);
    }
  }

  // ---- what is accepted ----

  // The text between its outer blanks.
  lemma {:induction false} TrimmedStart(s: string)
    ensures var t := TrimStart(s);
      && |t| <= |s| && t == s[|s| - |t|..] && AllBlank(s[..|s| - |t|]) && (t != [] ==> !Blank(t[0]))
  {
    if s != [] && Blank(s[0]) {
      TrimmedStart(s[1..]);
      var t := TrimStart(s[1..]);
      assert s[..|s| - |t|] == [s[0]] + s[1..][..|s| - 1 - |t|];
    }
  }

  lemma {:induction false} TrimmedEnd(s: string)
    ensures var t := TrimEnd(s);
      && |t| <= |s| && t == s[..|t|] && AllBlank(s[|t|..]) && (t != [] ==> !Blank(t[|t| - 1]))
  {
    if s != [] && Blank(s[|s| - 1]) {
      TrimmedEnd(s[..|s| - 1]);
      var t := TrimEnd(s[..|s| - 1]);
      assert s[|t|..] == s[..|s| - 1][|t|..] + [s[|s| - 1]];
    }
  }

  // `text` is what the value is without outer blanks, with forward slashes.
  ghost predicate Cleaned(value: string, text: string) {
    exists i, j :: CleanedAt(value, text, i, j)
  }

  predicate CleanedAt(value: string, text: string, i: int, j: int) {
    && 0 <= i <= j <= |value| && AllBlank(value[..i]) && AllBlank(value[j..])
    && (i < j ==> !Blank(value[i]) && !Blank(value[j - 1]))
    && |text| == j - i && forall k :: 0 <= k < |text| ==> text[k] == if value[i + k] == '\\' then '/' else value[i + k]
  }

  lemma TrimCleans(value: string)
    ensures Cleaned(value, Slashed(TrimEnd(TrimStart(value))))
  {
    var a := TrimStart(value);
    var b := TrimEnd(a);
    TrimmedStart(value);
    TrimmedEnd(a);
    var i := |value| - |a|;
    assert value[i + |b|..] == a[|b|..];
    assert CleanedAt(value, Slashed(b), i, i + |b|);
  }

  lemma CleanedOnce(value: string, text: string)
    requires Cleaned(value, text)
    ensures text == Slashed(TrimEnd(TrimStart(value)))
  {
    TrimCleans(value);
    var t := Slashed(TrimEnd(TrimStart(value)));
    var i, j :| CleanedAt(value, text, i, j);
    var k, l :| CleanedAt(value, t, k, l);
    if i < j {
      BlankOutside(value, t, k, l, i);
      BlankOutside(value, t, k, l, j - 1);
    }
    if k < l {
      BlankOutside(value, text, i, j, k);
      BlankOutside(value, text, i, j, l - 1);
    }
  }

  lemma BlankOutside(value: string, text: string, i: int, j: int, k: int)
    requires CleanedAt(value, text, i, j) && 0 <= k < |value|
    ensures k < i || j <= k ==> Blank(value[k])
  {
    if k < i {
      assert value[..i][k] == value[k];
    } else if j <= k {
      assert value[j..][k - j] == value[k];
    }
  }

  // Text without outer blanks is its own trimming.
  lemma DriveOfTrimmed(text: string)
    requires text != "" ==> !Blank(text[0]) && !Blank(text[|text| - 1])
    ensures HasDrivePrefix(text) <==> |text| >= 2 && Letter(text[0]) && text[1] == ':'
  {
  }

  // normalizeRelativePath, by where the path leads: refused when empty, absolute, leaving its folder,
  // leading nowhere below it, ending in a slash or through a bad name; otherwise the names it ends at.
  lemma AcceptedExactly(value: string, text: string, allowRoot: bool)
    requires Cleaned(value, text)
    ensures var segments := Split(text);
      var absolute := text != "" && (text[0] == '/' || (|text| >= 2 && Letter(text[0]) && text[1] == ':'));
      var inside := StaysInside(0, segments);
      var slash := text != "" && text[|text| - 1] == '/';
      var names := Walk([], segments);
      NormalizeRelativePath(value, allowRoot) ==
        if text == "" then (if allowRoot then Accepted("") else Rejected(InvalidRelativePath))
        else if absolute then Rejected(AbsolutePathRejected)
        else if !inside then Rejected(PathTraversalRejected)
        else if slash then Rejected(InvalidRelativePath)
        else if names == [] then (if allowRoot then Accepted("") else Rejected(InvalidRelativePath))
        else if Safe(names) then Accepted(Join(names))
        else Rejected(InvalidRelativePath)
  {
    CleanedOnce(value, text);
    if text != "" {
      var i, j :| CleanedAt(value, text, i, j);
      DriveOfTrimmed(text);
      ClimbsExactly(text);
    }
    hide Split, Fold, Walk, StaysInside, Safe, Join, InvalidSegment, NormalizeRelative, CleanedAt, HasDrivePrefix, TrimStart, TrimEnd;
  }

  // What becomes of the normalised path, by where the path leads.
  lemma ClimbsExactly(text: string)
    requires text != ""
    ensures var n, names := NormalizeRelative(text), Walk([], Split(text));
      && !("/" <= n)
      && (n == ".." || "../" <= n <==> !StaysInside(0, Split(text)))
      && (StaysInside(0, Split(text)) ==>
            && (n == "." <==> names == [] && !EndsWithSlash(text))
            && ((exists i :: 0 <= i < |Split(n)| && InvalidSegment(Split(n)[i])) <==> EndsWithSlash(text) || !Safe(names))
            && (names != [] && !EndsWithSlash(text) ==> n == Join(names)))
  {
    var segments := Split(text);
    FoldIsWalk(segments);
    SplitSegments(text);
    FoldShape(segments);
    var folded := Fold(segments, false);
    assert forall k :: 0 <= k < |folded| ==> NoSlash(folded[k]);
    DotSegments();
    hide Split, Fold, Walk, StaysInside, InvalidSegment, Join;
    if folded != [] {
      NormalizedSplit(folded, EndsWithSlash(text));
      hide Safe;
    } else {
      assert InvalidSegment(Split(NormalizeRelative(text))[if EndsWithSlash(text) then 1 else 0]);
    }
  }

  lemma DotSegments()
    ensures Split(".") == ["."] && Split("./") == [".", ""] && InvalidSegment(".") && InvalidSegment("")
  {
    SplitPlain(".");
    SplitPrefix(".", "");
    assert "./" == "." + ("/" + "");
  }

  // The first segment tells a climbing path from any other; a trailing slash leaves an empty one.
  lemma NormalizedSplit(folded: seq<string>, slash: bool)
    requires folded != [] && forall k :: 0 <= k < |folded| ==> NoSlash(folded[k]) && folded[k] != "" && folded[k] != "."
    ensures var n := Join(folded) + if slash then "/" else "";
      && Split(n) == folded + (if slash then [""] else [])
      && (n == ".." || "../" <= n <==> folded[0] == "..") && !("/" <= n) && n != "."
      && (exists i :: 0 <= i < |Split(n)| && InvalidSegment(Split(n)[i])) == (slash || !Safe(folded))
  {
    var n := Join(folded) + if slash then "/" else "";
    var all := folded + (if slash then [""] else []);
    if slash {
      JoinAppend(folded, [""]);
      assert Join([""]) == "";
    } else {
      assert all == folded;
    }
    assert n == Join(all);
    JoinSegments(all);
    FirstOf(all, n);
    if slash { assert InvalidSegment(all[|folded|]); }
    forall k | 0 <= k < |folded| ensures InvalidSegment(all[k]) <==> !SafeSegment(folded[k]) {
      SafeExactly(folded[k]);
    }
  }

  lemma FirstOf(all: seq<string>, n: string)
    requires all != [] && Split(n) == all && n == Join(all) && all[0] != "" && all[0] != "." && (|all| == 1 ==> NoSlash(n))
    ensures (n == ".." || "../" <= n <==> all[0] == "..") && !("/" <= n) && n != "."
  {
    if "../" <= n {
      assert n == ".." + ("/" + n[3..]);
      SplitPrefix("..", n[3..]);
    }
    if n == ".." { SplitPlain(".."); }
    if n == "." { SplitPlain("."); }
  }

  // A path of safe names is accepted as it is.
  lemma SafePathIsKept(names: seq<string>, allowRoot: bool)
    requires Safe(names) && !Blank(Join(names)[0]) && !Blank(Join(names)[|Join(names)| - 1])
    ensures NormalizeRelativePath(Join(names), allowRoot) == Accepted(Join(names))
  {
    var text := Join(names);
    assert NoSlash(names[0]);
    JoinSegments(names);
    WalkNames([], names);
    NoBackslash(names);
    assert text[..0] == [] && text[|text|..] == [];
    assert CleanedAt(text, text, 0, |text|);
    assert [] + names == names;
    NamesNotAbsolute(names);
    hide Safe, Walk, StaysInside, Split, Join, CleanedAt, Blank, NormalizeRelativePath;
    AcceptedExactly(text, text, allowRoot);
  }

  lemma {:induction false} WalkNames(at: seq<string>, names: seq<string>)
    requires forall i :: 0 <= i < |names| ==> SafeSegment(names[i])
    ensures Walk(at, names) == at + names && StaysInside(|at|, names)
    decreases |names|
  {
    if names != [] {
      WalkNames(at + [names[0]], names[1..]);
      assert at + names == at + [names[0]] + names[1..];
    }
  }

  lemma {:induction false} NoBackslash(names: seq<string>)
    requires Safe(names)
    ensures '\\' !in Join(names) && Join(names) != ""
  {
    assert SafeSegment(names[0]);
    if |names| > 1 { NoBackslash(names[1..]); }
  }

  lemma NamesNotAbsolute(names: seq<string>)
    requires Safe(names)
    ensures var t := Join(names); t != "" && t[0] != '/' && t[|t| - 1] != '/' && !(|t| >= 2 && Letter(t[0]) && t[1] == ':')
  {
    var t := Join(names);
    assert SafeSegment(names[0]);
    if |names[0]| >= 2 {
      assert t[1] == names[0][1] && names[0][1] in names[0];
    } else if |names| > 1 {
      assert t[1] == '/';
    }
    LastOf(names);
  }

  lemma {:induction false} LastOf(names: seq<string>)
    requires Safe(names)
    ensures Join(names) != "" && Join(names)[|Join(names)| - 1] != '/'
  {
    assert SafeSegment(names[0]);
    if |names| > 1 { LastOf(names[1..]); }
  }

  lemma {:induction false} FoldPlain(segments: seq<string>, absolute: bool)
    requires forall i :: 0 <= i < |segments| ==> PlainSegment(segments[i])
    ensures Fold(segments, absolute) == segments
  {
    if segments != [] {
      FoldPlain(segments[..|segments| - 1], absolute);
      assert segments == segments[..|segments| - 1] + [segments[|segments| - 1]];
    }
  }

  lemma {:induction false} FoldAppend(front: seq<string>, segments: seq<string>, absolute: bool)
    requires forall i :: 0 <= i < |segments| ==> PlainSegment(segments[i])
    ensures Fold(front + segments, absolute) == Fold(front, absolute) + segments
  {
    if segments == [] {
      assert front + segments == front;
    } else {
      var last := |segments| - 1;
      FoldAppend(front, segments[..last], absolute);
      assert (front + segments)[..|front + segments| - 1] == front + segments[..last];
      assert segments == segments[..last] + [segments[last]];
    }
  }

  // A normalised absolute root: "/" and plain segments.
  predicate RootPath(root: string) {
    |root| > 1 && root[0] == '/' && Plain(Split(root[1..]))
  }

  lemma {:induction false} JoinAppend(front: seq<string>, back: seq<string>)
    requires front != [] && back != []
    ensures Join(front + back) == Join(front) + "/" + Join(back)
    decreases |front|
  {
    if |front| == 1 {
      assert (front + back)[1..] == back;
    } else {
      assert (front + back)[1..] == front[1..] + back;
      JoinAppend(front[1..], back);
    }
  }

  lemma SplitSlash(t: string)
    ensures Split("/" + t) == [""] + Split(t)
  {
    assert ("/" + t)[1..] == t;
  }

  lemma SplitTail(front: string, path: string)
    requires Plain(Split(front)) && Plain(Split(path))
    ensures Split(front + "/" + path) == Split(front) + Split(path)
    ensures front + "/" + path == Join(Split(front) + Split(path))
  {
    SplitSegments(front);
    SplitSegments(path);
    JoinAppend(Split(front), Split(path));
    JoinSegments(Split(front) + Split(path));
  }

  lemma SplitBelow(root: string, path: string)
    requires RootPath(root) && Plain(Split(path))
    ensures Split(root + "/" + path) == [""] + (Split(root[1..]) + Split(path))
    ensures root + "/" + path == "/" + Join(Split(root[1..]) + Split(path))
  {
    var front := root[1..];
    SplitTail(front, path);
    SplitSlash(front + "/" + path);
    Unroot(root, front, path);
  }

  lemma Unroot(root: string, front: string, path: string)
    requires |root| > 1 && root[0] == '/' && front == root[1..]
    ensures root + "/" + path == "/" + (front + "/" + path)
  {
    assert root == "/" + front;
  }

  // On POSIX an accepted path resolves to the root followed by its own segments.
  lemma ResolvesBelow(root: string, path: string)
    requires RootPath(root) && Plain(Split(path))
    ensures Resolve(root, path) == root + "/" + path
  {
    var all := Split(root[1..]) + Split(path);
    SplitBelow(root, path);
    FoldAppend([""], all, true);
    assert [""][..0] == [];
    assert Fold([""], true) == [];
    assert Fold([""] + all, true) == all;
  }

  // isPathInsideRoot, for normalised paths.
  predicate Inside(root: string, candidate: string) {
    candidate != root && root + "/" <= candidate
  }

  // Every accepted path leads strictly below the root, and different ones to different places.
  lemma ContainedAndInjective(root: string, value: string, other: string)
    requires RootPath(root)
    requires NormalizeRelativePath(value, false).Accepted? && NormalizeRelativePath(other, false).Accepted?
    ensures var p, q := NormalizeRelativePath(value, false).path, NormalizeRelativePath(other, false).path;
      && Inside(root, Resolve(root, p))
      && (Resolve(root, p) == Resolve(root, q) <==> p == q)
  {
    var p, q := NormalizeRelativePath(value, false).path, NormalizeRelativePath(other, false).path;
    NeverEmpty(value);
    NeverEmpty(other);
    AcceptedIsPlain(value, false);
    AcceptedIsPlain(other, false);
    ResolvesBelow(root, p);
    ResolvesBelow(root, q);
    assert (root + "/" + p)[|root| + 1..] == p && (root + "/" + q)[|root| + 1..] == q;
  }

  lemma NeverEmpty(value: string)
    requires NormalizeRelativePath(value, false).Accepted?
    ensures NormalizeRelativePath(value, false).path != ""
  {
    var path := NormalizeRelativePath(value, false).path;
    assert Split("") == [""] && InvalidSegment("");
    assert !InvalidSegment(Split(path)[0]);
  }
}
