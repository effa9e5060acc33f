/**
  Local write permissions (packages/config/src/permissions.ts) on POSIX paths. The
  functions of node:path that the decision calls (normalize, resolve, relative) are
  modelled on strings; the working directory is a parameter.
 */
module Paths {

  // ------------------------------------------------------------- strings and segments

  // The pieces between slashes; always at least one.
  function Split(s: string): (segs: seq<string>)
    ensures |segs| >= 1
  {
    if s == "" then [""]
    else if s[0] == '/' then [""] + Split(s[1..])
    else var rest := Split(s[1..]); [[s[0]] + rest[0]] + rest[1..]
  }

  function Join(segs: seq<string>): string {
    if segs == [] then "" else if |segs| == 1 then segs[0] else segs[0] + "/" + Join(segs[1..])
  }

  predicate IsAbsolute(path: string) {
    path != "" && path[0] == '/'
  }

  predicate StartsWith(s: string, prefix: string) {
    |s| >= |prefix| && s[..|prefix|] == prefix
  }

  // Dot segments resolved against a stack, as node's normalizeString does; `above`
  // keeps a ".." that has nothing to cancel, otherwise it is dropped at the root.
  function Walk(stack: seq<string>, segs: seq<string>, above: bool): seq<string>
    decreases |segs|
  {
    if segs == [] then stack
    else Walk(Visit(stack, segs[0], above), segs[1..], above)
  }

  function Visit(stack: seq<string>, seg: string, above: bool): seq<string> {
    if seg == "" || seg == "." then stack
    else if seg != ".." then stack + [seg]
    else if stack != [] && stack[|stack| - 1] != ".." then stack[..|stack| - 1]
    else if above then stack + [".."]
    else stack
  }

  // ---------------------------------------------------------------- node:path, POSIX

  function Normalize(path: string): string {
    if path == "" then "."
    else
      var absolute := IsAbsolute(path);
      var trailing := path[|path| - 1] == '/';
      var body := Join(Walk([], Split(path), !absolute));
      if body == "" then (if absolute then "/" else if trailing then "./" else ".")
      else (if absolute then "/" else "") + body + (if trailing then "/" else "")
  }

  function Resolve(cwd: string, path: string): string {
    var full := if path == "" then cwd + "/" else if IsAbsolute(path) then path + "/" else cwd + "/" + path + "/";
    "/" + Join(Parts(full))
  }

  function Parts(path: string): seq<string> {
    Walk([], Split(path), false)
  }

  function CommonLength(a: seq<string>, b: seq<string>): (n: nat)
    ensures n <= |a| && n <= |b|
  {
    if a == [] || b == [] || a[0] != b[0] then 0 else 1 + CommonLength(a[1..], b[1..])
  }

  function Ups(n: nat): seq<string> {
    seq(n, _ => "..")
  }

  function Relative(cwd: string, from: string, to: string): string {
    if from == to then ""
    else
      var f, t := Parts(Resolve(cwd, from)), Parts(Resolve(cwd, to));
      var common := CommonLength(f, t);
      Join(Ups(|f| - common) + t[common..])
  }

  // -------------------------------------------------------------------- permissions.ts

  function NormalizePath(cwd: string, path: string): string {
    var normalized := Normalize(path);
    if IsAbsolute(normalized) then normalized else Resolve(cwd, normalized)
  }

  predicate IsWithinRoot(cwd: string, targetPath: string, rootPath: string) {
    var relative := Relative(cwd, NormalizePath(cwd, rootPath), NormalizePath(cwd, targetPath));
    relative == "" || (!StartsWith(relative, "..") && !IsAbsolute(relative))
  }

  datatype Action = Read | Write | Delete | Mkdir | Rename | Shell

  datatype Outcome = Allow | Deny | RequiresApproval

  datatype Input = Input(
    action: Action,
    targetPath: string,               // "" when there is none
    declaredWritePaths: seq<string>,
    requiresElevation: bool,
    promptForElevation: bool,         // of the filesystem or of the shell
    allowAllWrites: bool,
    writeAllowedPaths: seq<string>)

  predicate IsLetter(c: char) {
    'A' <= c <= 'Z' || 'a' <= c <= 'z'
  }

  predicate IsWindowsStylePath(value: string) {
    || (|value| >= 3 && IsLetter(value[0]) && value[1] == ':' && (value[2] == '\\' || value[2] == '/'))
    || StartsWith(value, "\\\\")
  }

  // No value selects the Windows rules.
  predicate Posix(input: Input) {
    && !IsWindowsStylePath(input.targetPath)
    && (forall p :: p in input.writeAllowedPaths ==> !IsWindowsStylePath(p))
    && (forall p :: p in input.declaredWritePaths ==> !IsWindowsStylePath(p))
  }

  // Containment by the rules of Windows paths, which a value may select.
  type Win32 = (string, string) -> bool

  // isWithinRoot with the selected path module.
  predicate Within(cwd: string, win32: Win32, posix: bool, path: string, root: string) {
    if posix then IsWithinRoot(cwd, path, root) else win32(path, root)
  }

  predicate SomeRootContains(cwd: string, win32: Win32, posix: bool, roots: seq<string>, path: string) {
    exists i :: 0 <= i < |roots| && Within(cwd, win32, posix, path, roots[i])
  }

  function EvaluateLocalPermission(cwd: string, win32: Win32, input: Input): Outcome {
    var posix := Posix(input);
    if input.requiresElevation then (if input.promptForElevation then RequiresApproval else Deny)
    else if input.action.Read? then Allow
    else if input.action.Shell? then
      if input.declaredWritePaths == [] || input.allowAllWrites then Allow
      else if forall i :: 0 <= i < |input.declaredWritePaths| ==>
                SomeRootContains(cwd, win32, posix, input.writeAllowedPaths, input.declaredWritePaths[i]) then Allow
      else Deny
    else if input.targetPath == "" then Deny
    else if input.allowAllWrites then Allow
    else if SomeRootContains(cwd, win32, posix, input.writeAllowedPaths, input.targetPath) then Allow
    else Deny
  }

  // ------------------------------------------------------------ the reference meaning

  // The segments of the absolute path that a path means, resolved purely lexically.
  function Resolved(cwd: string, path: string): seq<string> {
    if IsAbsolute(path) then Parts(path) else Walk(Parts(cwd), Split(path), false)
  }

  // A root contains a path when its segments are a prefix and the next segment, if
  // any, does not begin with "..".
  predicate Contains(root: seq<string>, target: seq<string>) {
    root <= target && (|root| == |target| || !StartsWith(target[|root|], ".."))
  }

  // -------------------------------------------------------------------- segment lemmas

  predicate NoSlash(seg: string) {
    forall i :: 0 <= i < |seg| ==> seg[i] != '/'
  }

  // A real name: not empty, no slash, no dot segment.
  predicate Name(seg: string) {
    NoSlash(seg) && seg != "" && seg != "." && seg != ".."
  }

  predicate Names(segs: seq<string>) {
    forall i :: 0 <= i < |segs| ==> Name(segs[i])
  }

  // Names behind a run of "..": what Walk leaves on a relative path.
  predicate Climbing(segs: seq<string>) {
    && (forall i :: 0 <= i < |segs| ==> Name(segs[i]) || segs[i] == "..")
    && (forall i :: 0 < i < |segs| && segs[i] == ".." ==> segs[i - 1] == "..")
  }

  lemma {:induction false} SplitPieces(s: string)
    ensures forall i :: 0 <= i < |Split(s)| ==> NoSlash(Split(s)[i])
  {
    if s != "" {
      SplitPieces(s[1..]);
    }
  }

  lemma {:induction false} SplitConcat(a: string, b: string)
    ensures Split(a + "/" + b) == Split(a) + Split(b)
  {
    var s := a + "/" + b;
    if a == "" {
      assert s[1..] == b;
    } else {
      assert s[1..] == a[1..] + "/" + b;
      SplitConcat(a[1..], b);
    }
  }

  lemma {:induction false} SplitPlain(s: string)
    requires NoSlash(s)
    ensures Split(s) == [s]
  {
    if s != "" {
      SplitPlain(s[1..]);
      assert [s[0]] + s[1..] == s;
    }
  }

  lemma {:induction false} SplitJoin(segs: seq<string>)
    requires segs != [] && forall i :: 0 <= i < |segs| ==> NoSlash(segs[i])
    ensures Split(Join(segs)) == segs
  {
    SplitPlain(segs[0]);
    if |segs| > 1 {
      SplitJoin(segs[1..]);
      SplitConcat(segs[0], Join(segs[1..]));
    }
  }

  lemma {:induction false} WalkConcat(stack: seq<string>, a: seq<string>, b: seq<string>, above: bool)
    ensures Walk(stack, a + b, above) == Walk(Walk(stack, a, above), b, above)
    decreases |a|
  {
    if a == [] {
      assert a + b == b;
    } else {
      assert (a + b)[0] == a[0] && (a + b)[1..] == a[1..] + b;
      WalkConcat(Visit(stack, a[0], above), a[1..], b, above);
    }
  }

  lemma WalkOne(stack: seq<string>, seg: string, above: bool)
    ensures Walk(stack, [seg], above) == Visit(stack, seg, above)
  {
  }

  // Walking over names pushes them.
  lemma {:induction false} WalkNames(stack: seq<string>, segs: seq<string>)
    requires Names(segs)
    ensures Walk(stack, segs, false) == stack + segs
    decreases |segs|
  {
    if segs != [] {
      WalkNames(stack + [segs[0]], segs[1..]);
      assert stack + [segs[0]] + segs[1..] == stack + segs;
    }
  }

  lemma {:induction false} WalkKeepsNames(stack: seq<string>, segs: seq<string>)
    requires Names(stack) && forall i :: 0 <= i < |segs| ==> NoSlash(segs[i])
    ensures Names(Walk(stack, segs, false))
    decreases |segs|
  {
    if segs != [] {
      WalkKeepsNames(Visit(stack, segs[0], false), segs[1..]);
    }
  }

  lemma PartsAreNames(path: string)
    ensures Names(Parts(path))
  {
    SplitPieces(path);
    WalkKeepsNames([], Split(path));
  }

  lemma ResolvedNames(cwd: string, path: string)
    ensures Names(Resolved(cwd, path))
  {
    PartsAreNames(cwd);
    PartsAreNames(path);
    SplitPieces(path);
    WalkKeepsNames(Parts(cwd), Split(path));
  }

  // ------------------------------------------------------ normalising keeps the meaning

  lemma ClimbingVisit(stack: seq<string>, seg: string)
    requires Climbing(stack) && NoSlash(seg)
    ensures Climbing(Visit(stack, seg, true))
  {
  }

  // Visiting a segment before or after the relative normalisation is the same.
  lemma VisitCommutes(base: seq<string>, stack: seq<string>, seg: string)
    requires Climbing(stack)
    ensures Walk(base, Visit(stack, seg, true), false) == Visit(Walk(base, stack, false), seg, false)
  {
    var moved := Walk(base, stack, false);
    if seg == "" || seg == "." {
    } else if seg == ".." && stack != [] && stack[|stack| - 1] != ".." {
      var below, top := stack[..|stack| - 1], stack[|stack| - 1];
      assert stack == below + [top];
      WalkConcat(base, below, [top], false);
      WalkOne(Walk(base, below, false), top, false);
      assert moved == Walk(base, below, false) + [top];
    } else {
      WalkConcat(base, stack, [seg], false);
      WalkOne(moved, seg, false);
    }
  }

  lemma {:induction false} WalkTwice(base: seq<string>, stack: seq<string>, segs: seq<string>)
    requires Climbing(stack) && forall i :: 0 <= i < |segs| ==> NoSlash(segs[i])
    ensures Climbing(Walk(stack, segs, true))
    ensures Walk(base, Walk(stack, segs, true), false) == Walk(Walk(base, stack, false), segs, false)
    decreases |segs|
  {
    if segs != [] {
      ClimbingVisit(stack, segs[0]);
      VisitCommutes(base, stack, segs[0]);
      WalkTwice(base, Visit(stack, segs[0], true), segs[1..]);
    }
  }

  // A string that starts with a slash, then joined segments, then maybe a slash.
  lemma WalkJoined(stack: seq<string>, segs: seq<string>, trailing: bool)
    requires segs != [] && forall i :: 0 <= i < |segs| ==> NoSlash(segs[i])
    ensures Walk(stack, Split(Join(segs) + (if trailing then "/" else "")), false) == Walk(stack, segs, false)
  {
    SplitJoin(segs);
    if trailing {
      SplitConcat(Join(segs), "");
      assert Join(segs) + "/" + "" == Join(segs) + "/";
      WalkConcat(stack, segs, [""], false);
      WalkOne(Walk(stack, segs, false), "", false);
    } else {
      assert Join(segs) + "" == Join(segs);
    }
  }

  lemma PartsOfAbsolute(rest: string)
    ensures Parts("/" + rest) == Walk([], Split(rest), false)
  {
  }

  lemma JoinNonEmpty(segs: seq<string>)
    requires segs != [] && segs[0] != ""
    ensures Join(segs) != "" && Join(segs)[0] == segs[0][0]
  {
  }

  lemma NormalizeAbsolute(path: string)
    requires IsAbsolute(path)
    ensures IsAbsolute(Normalize(path)) && Parts(Normalize(path)) == Parts(path)
  {
    var segs := Parts(path);
    PartsAreNames(path);
    var trailing := path[|path| - 1] == '/';
    if segs == [] {
      PartsOfAbsolute("");
      assert "/" + "" == "/";
      WalkOne([], "", false);
    } else {
      JoinNonEmpty(segs);
      var rest := Join(segs) + (if trailing then "/" else "");
      assert Normalize(path) == "/" + rest;
      PartsOfAbsolute(rest);
      WalkJoined([], segs, trailing);
      WalkNames([], segs);
    }
  }

  lemma NormalizeRelative(base: seq<string>, path: string)
    requires !IsAbsolute(path)
    ensures Normalize(path) != "" && !IsAbsolute(Normalize(path))
    ensures Walk(base, Split(Normalize(path)), false) == Walk(base, Split(path), false)
  {
    if path == "" {
      SplitPlain(".");
      SplitPlain("");
      WalkOne(base, ".", false);
      WalkOne(base, "", false);
    } else {
      var segs := Walk([], Split(path), true);
      SplitPieces(path);
      WalkTwice(base, [], Split(path));
      var trailing := path[|path| - 1] == '/';
      if segs == [] {
        assert Normalize(path) == Join(["."]) + (if trailing then "/" else "");
        WalkJoined(base, ["."], trailing);
        WalkOne(base, ".", false);
      } else {
        JoinNonEmpty(segs);
        assert Normalize(path) == Join(segs) + (if trailing then "/" else "");
        WalkJoined(base, segs, trailing);
      }
    }
  }

  lemma PartsOfResolve(cwd: string, path: string)
    ensures IsAbsolute(Resolve(cwd, path))
    ensures Parts(Resolve(cwd, path)) == Resolved(cwd, path)
  {
    var full := if path == "" then cwd + "/" else if IsAbsolute(path) then path + "/" else cwd + "/" + path + "/";
    assert Parts(full) == Resolved(cwd, path) by {
      ResolveFull(cwd, path);
    }
    PartsAreNames(full);
    var segs := Parts(full);
    PartsOfAbsolute(Join(segs));
    if segs == [] {
      SplitPlain("");
      WalkOne([], "", false);
    } else {
      SplitJoin(segs);
      WalkNames([], segs);
    }
  }

  lemma TrailingSlash(stack: seq<string>, path: string)
    ensures Walk(stack, Split(path + "/"), false) == Walk(stack, Split(path), false)
  {
    assert path + "/" + "" == path + "/";
    SplitConcat(path, "");
    WalkConcat(stack, Split(path), [""], false);
    WalkOne(Walk(stack, Split(path), false), "", false);
  }

  lemma ResolveFull(cwd: string, path: string)
    ensures Parts(if path == "" then cwd + "/" else if IsAbsolute(path) then path + "/" else cwd + "/" + path + "/")
            == Resolved(cwd, path)
  {
    if path == "" {
      TrailingSlash([], cwd);
      SplitPlain("");
      WalkOne(Parts(cwd), "", false);
    } else if IsAbsolute(path) {
      TrailingSlash([], path);
    } else {
      TrailingSlash([], cwd + "/" + path);
      SplitConcat(cwd, path);
      WalkConcat([], Split(cwd), Split(path), false);
    }
  }

  // normalizePath means exactly the lexical resolution of the path.
  lemma NormalizePathMeaning(cwd: string, path: string)
    ensures IsAbsolute(NormalizePath(cwd, path))
    ensures Parts(NormalizePath(cwd, path)) == Resolved(cwd, path)
  {
    if IsAbsolute(path) {
      NormalizeAbsolute(path);
    } else {
      NormalizeRelative(Parts(cwd), path);
      PartsOfResolve(cwd, Normalize(path));
    }
  }

  // ----------------------------------------------------------------------- containment

  lemma {:induction false} CommonPrefix(a: seq<string>, b: seq<string>)
    ensures a[..CommonLength(a, b)] == b[..CommonLength(a, b)]
    ensures a <= b <==> CommonLength(a, b) == |a|
  {
    if a != [] && b != [] && a[0] == b[0] {
      CommonPrefix(a[1..], b[1..]);
      var n := CommonLength(a[1..], b[1..]);
      assert a[..n + 1] == [a[0]] + a[1..][..n] && b[..n + 1] == [b[0]] + b[1..][..n];
      assert a == [a[0]] + a[1..] && b == [b[0]] + b[1..];
    }
  }

  // A joined list begins with ".." exactly when its first segment does.
  lemma JoinStartsWithDots(segs: seq<string>)
    requires segs != [] && segs[0] != "" && NoSlash(segs[0])
    ensures StartsWith(Join(segs), "..") <==> StartsWith(segs[0], "..")
    ensures Join(segs) != "" && !IsAbsolute(Join(segs))
  {
    var s := Join(segs);
    assert s[..|segs[0]|] == segs[0];
    assert s[0] == segs[0][0];
    if |segs[0]| == 1 {
      assert |s| >= 2 ==> s[..2][1] == '/';
      assert ".."[1] == '.';
    } else {
      assert s[..2] == segs[0][..2];
    }
  }

  lemma RelativeDecides(f: seq<string>, t: seq<string>)
    requires Names(f) && Names(t)
    ensures var common := CommonLength(f, t);
            var relative := Join(Ups(|f| - common) + t[common..]);
            (relative == "" || (!StartsWith(relative, "..") && !IsAbsolute(relative))) <==> Contains(f, t)
  {
    CommonPrefix(f, t);
    var common := CommonLength(f, t);
    var steps := Ups(|f| - common) + t[common..];
    if |f| > common {
      assert steps[0] == "..";
      JoinStartsWithDots(steps);
    } else if |t| > common {
      assert steps[0] == t[common];
      JoinStartsWithDots(steps);
    }
  }

  // Containment is decided by the resolved segments alone.
  lemma WithinRootMeaning(cwd: string, target: string, root: string)
    ensures IsWithinRoot(cwd, target, root) <==> Contains(Resolved(cwd, root), Resolved(cwd, target))
  {
    var from, to := NormalizePath(cwd, root), NormalizePath(cwd, target);
    var f, t := Resolved(cwd, root), Resolved(cwd, target);
    NormalizePathMeaning(cwd, root);
    NormalizePathMeaning(cwd, target);
    PartsOfResolve(cwd, from);
    PartsOfResolve(cwd, to);
    if from != to {
      ResolvedNames(cwd, root);
      ResolvedNames(cwd, target);
      RelativeDecides(f, t);
    }
  }

  // Some root contains the path, in terms of resolved segments unless a value is
  // Windows-style.
  ghost predicate RootsContain(cwd: string, win32: Win32, input: Input, path: string) {
    exists i :: 0 <= i < |input.writeAllowedPaths| && RootContains(cwd, win32, input, i, path)
  }

  ghost predicate RootContains(cwd: string, win32: Win32, input: Input, i: nat, path: string)
    requires i < |input.writeAllowedPaths|
  {
    var root := input.writeAllowedPaths[i];
    if Posix(input) then Contains(Resolved(cwd, root), Resolved(cwd, path)) else win32(path, root)
  }

  lemma RootsMeaning(cwd: string, win32: Win32, input: Input, path: string)
    ensures SomeRootContains(cwd, win32, Posix(input), input.writeAllowedPaths, path)
            <==> RootsContain(cwd, win32, input, path)
  {
    var roots := input.writeAllowedPaths;
    forall i | 0 <= i < |roots|
      ensures Within(cwd, win32, Posix(input), path, roots[i]) <==> RootContains(cwd, win32, input, i, path)
    {
      WithinRootMeaning(cwd, path, roots[i]);
    }
  }

  // Without elevation, a mutating filesystem action on a target is allowed exactly
  // when all writes are, or some root contains the target.
  lemma WriteDecision(cwd: string, win32: Win32, input: Input)
    requires !input.requiresElevation && !input.action.Read? && !input.action.Shell?
    ensures EvaluateLocalPermission(cwd, win32, input) == Allow
            <==> input.targetPath != ""
                 && (input.allowAllWrites || RootsContain(cwd, win32, input, input.targetPath))
  {
    RootsMeaning(cwd, win32, input, input.targetPath);
  }

  // A shell command is allowed exactly when it declares no write, all writes are
  // allowed, or every declared path lies in some root.
  lemma ShellDecision(cwd: string, win32: Win32, input: Input)
    requires !input.requiresElevation && input.action.Shell?
    ensures EvaluateLocalPermission(cwd, win32, input) == Allow
            <==> input.declaredWritePaths == [] || input.allowAllWrites
                 || forall i :: 0 <= i < |input.declaredWritePaths| ==>
                      RootsContain(cwd, win32, input, input.declaredWritePaths[i])
  {
    forall i | 0 <= i < |input.declaredWritePaths|
      ensures SomeRootContains(cwd, win32, Posix(input), input.writeAllowedPaths, input.declaredWritePaths[i])
              <==> RootsContain(cwd, win32, input, input.declaredWritePaths[i])
    {
      RootsMeaning(cwd, win32, input, input.declaredWritePaths[i]);
    }
  }

  // Being below the root is what decides, except for exactly one family: a target
  // whose first segment under the root merely begins with "..".
  lemma BelowRootExactly(cwd: string, target: string, root: string)
    ensures var r, t := Resolved(cwd, root), Resolved(cwd, target);
            (IsWithinRoot(cwd, target, root) <==> r <= t)
            <==> !(r < t && StartsWith(t[|r|], ".."))
  {
    WithinRootMeaning(cwd, target, root);
  }

  // A name behind a path is a child of what the path means.
  lemma ChildResolves(cwd: string, path: string, name: string)
    requires path != "" && Name(name)
    ensures Resolved(cwd, path + "/" + name) == Resolved(cwd, path) + [name]
  {
    var base := if IsAbsolute(path) then [] else Parts(cwd);
    SplitConcat(path, name);
    SplitPlain(name);
    WalkConcat(base, Split(path), [name], false);
    WalkNames(Walk(base, Split(path), false), [name]);
    assert (path + "/" + name)[0] == path[0];
  }

  // What a path means, by its last piece: "." leads nowhere and ".." to the parent, which
  // of the root is the root itself.
  lemma PieceResolves(cwd: string, path: string)
    requires path != ""
    ensures Resolved(cwd, path + "/" + ".") == Resolved(cwd, path)
    ensures var here := Resolved(cwd, path);
            Resolved(cwd, path + "/" + "..") == if here == [] then [] else here[..|here| - 1]
  {
    var base := if IsAbsolute(path) then [] else Parts(cwd);
    LastPiece(cwd, path, ".");
    LastPiece(cwd, path, "..");
    ResolvedNames(cwd, path);
  }

  lemma LastPiece(cwd: string, path: string, piece: string)
    requires path != "" && NoSlash(piece)
    ensures Resolved(cwd, path + "/" + piece) == Visit(Resolved(cwd, path), piece, false)
  {
    var base := if IsAbsolute(path) then [] else Parts(cwd);
    SplitConcat(path, piece);
    SplitPlain(piece);
    WalkConcat(base, Split(path), [piece], false);
    WalkOne(Walk(base, Split(path), false), piece, false);
    assert (path + "/" + piece)[0] == path[0];
  }

  // A path of one piece, and how relative paths depend on the working directory.
  lemma BaseResolves(cwd: string, name: string)
    requires Name(name)
    ensures Resolved(cwd, "/") == [] && Resolved(cwd, "/" + name) == [name]
    ensures Resolved(cwd, name) == Parts(cwd) + [name]
    ensures Resolved(cwd, "") == Parts(cwd) && Resolved(cwd, ".") == Parts(cwd)
    ensures IsAbsolute(cwd) ==> Resolved(cwd, cwd) == Parts(cwd)
  {
    assert "/" + "" == "/";
    PartsOfAbsolute("");
    PartsOfAbsolute(name);
    SplitPlain("");
    SplitPlain(".");
    SplitPlain(name);
    WalkOne([], "", false);
    WalkNames([], [name]);
    WalkNames(Parts(cwd), [name]);
    WalkOne(Parts(cwd), "", false);
    WalkOne(Parts(cwd), ".", false);
  }

  // The family is not empty: every root has such children, "..b" under it for one.
  lemma DotDotChildRefused(cwd: string, root: string)
    ensures var child := (if root == "" then "." else root) + "/" + "..b";
            && Resolved(cwd, child) == Resolved(cwd, root) + ["..b"]
            && !IsWithinRoot(cwd, child, root)
  {
    var path := if root == "" then "." else root;
    var child := path + "/" + "..b";
    ChildResolves(cwd, path, "..b");
    SplitPlain("");
    SplitPlain(".");
    WalkOne(Parts(cwd), "", false);
    WalkOne(Parts(cwd), ".", false);
    assert StartsWith("..b", "..");
    BelowRootExactly(cwd, child, root);
  }

  // ------------------------------------------------------------------------- spellings

  // Pieces that lead nowhere: between doubled or after trailing slashes, a ".", or a
  // name and its "..".
  ghost predicate Idle(pieces: seq<string>) {
    || pieces == [""] || pieces == ["."]
    || (|pieces| == 2 && Name(pieces[0]) && pieces[1] == "..")
  }

  // One respelling of a path, at its beginning, in its middle or at its end: the second
  // path is the first without some idle pieces, and both or neither are absolute.
  ghost predicate Respelled(a: string, b: string) {
    && IsAbsolute(a) == IsAbsolute(b)
    && exists u, idle, v :: Idle(idle) && Split(a) == u + idle + v && Split(b) == u + v
  }

  lemma IdleWalk(stack: seq<string>, idle: seq<string>)
    requires Idle(idle)
    ensures Walk(stack, idle, false) == stack
  {
    if |idle| == 1 {
      WalkOne(stack, idle[0], false);
    } else {
      assert idle == [idle[0]] + [idle[1]];
      WalkConcat(stack, [idle[0]], [idle[1]], false);
      WalkOne(stack, idle[0], false);
      WalkOne(stack + [idle[0]], idle[1], false);
    }
  }

  lemma RespelledResolves(cwd: string, a: string, b: string)
    requires Respelled(a, b)
    ensures Resolved(cwd, a) == Resolved(cwd, b)
  {
    var u, idle, v :| Idle(idle) && Split(a) == u + idle + v && Split(b) == u + v;
    var base := if IsAbsolute(a) then [] else Parts(cwd);
    WalkConcat(base, u + idle, v, false);
    WalkConcat(base, u, idle, false);
    IdleWalk(Walk(base, u, false), idle);
    WalkConcat(base, u, v, false);
  }

  // A chain of respellings in either direction.
  ghost predicate SpellingChain(chain: seq<string>) {
    forall i :: 0 <= i < |chain| - 1 ==> Respelled(chain[i], chain[i + 1]) || Respelled(chain[i + 1], chain[i])
  }

  ghost predicate SamePath(a: string, b: string) {
    exists chain :: chain != [] && SpellingChain(chain) && chain[0] == a && chain[|chain| - 1] == b
  }

  lemma {:induction false} ChainResolves(cwd: string, chain: seq<string>)
    requires chain != [] && SpellingChain(chain)
    ensures Resolved(cwd, chain[0]) == Resolved(cwd, chain[|chain| - 1])
  {
    if |chain| > 1 {
      ChainResolves(cwd, chain[1..]);
      if Respelled(chain[0], chain[1]) {
        RespelledResolves(cwd, chain[0], chain[1]);
      } else {
        RespelledResolves(cwd, chain[1], chain[0]);
      }
    }
  }

  ghost predicate SamePaths(a: seq<string>, b: seq<string>) {
    |a| == |b| && forall i :: 0 <= i < |a| ==> SamePath(a[i], b[i])
  }

  // The same request with its target, roots and declared paths spelled differently. An
  // absent target stays absent.
  ghost predicate SameRequest(a: Input, b: Input) {
    && a.(targetPath := "", declaredWritePaths := [], writeAllowedPaths := [])
       == b.(targetPath := "", declaredWritePaths := [], writeAllowedPaths := [])
    && SamePath(a.targetPath, b.targetPath) && (a.targetPath == "" <==> b.targetPath == "")
    && SamePaths(a.writeAllowedPaths, b.writeAllowedPaths)
    && SamePaths(a.declaredWritePaths, b.declaredWritePaths)
  }

  lemma SamePathResolves(cwd: string, a: string, b: string)
    requires SamePath(a, b)
    ensures Resolved(cwd, a) == Resolved(cwd, b)
  {
    var chain :| chain != [] && SpellingChain(chain) && chain[0] == a && chain[|chain| - 1] == b;
    ChainResolves(cwd, chain);
  }

  // The Windows rules do not depend on these spellings either.
  ghost predicate Insensitive(win32: Win32) {
    forall p, q, root, other :: SamePath(p, q) && SamePath(root, other) ==> win32(p, root) == win32(q, other)
  }

  lemma SameRoots(cwd: string, win32: Win32, a: Input, b: Input, p: string, q: string)
    requires Posix(a) == Posix(b) && (Posix(a) || Insensitive(win32))
    requires SamePaths(a.writeAllowedPaths, b.writeAllowedPaths) && SamePath(p, q)
    ensures RootsContain(cwd, win32, a, p) <==> RootsContain(cwd, win32, b, q)
  {
    SamePathResolves(cwd, p, q);
    forall i | 0 <= i < |a.writeAllowedPaths|
      ensures RootContains(cwd, win32, a, i, p) <==> RootContains(cwd, win32, b, i, q)
    {
      SamePathResolves(cwd, a.writeAllowedPaths[i], b.writeAllowedPaths[i]);
    }
  }

  // The decision is the same for every spelling of every path in a request, as long as
  // the spelling selects the same rules, and these do not depend on it if they are those
  // of Windows.
  lemma SpellingIrrelevant(cwd: string, win32: Win32, a: Input, b: Input)
    requires SameRequest(a, b) && Posix(a) == Posix(b) && (Posix(a) || Insensitive(win32))
    ensures EvaluateLocalPermission(cwd, win32, a) == EvaluateLocalPermission(cwd, win32, b)
  {
    if a.requiresElevation || a.action.Read? {
    } else if a.action.Shell? {
      ShellDecision(cwd, win32, a);
      ShellDecision(cwd, win32, b);
      forall i | 0 <= i < |a.declaredWritePaths|
        ensures RootsContain(cwd, win32, a, a.declaredWritePaths[i])
                <==> RootsContain(cwd, win32, b, b.declaredWritePaths[i])
      {
        SameRoots(cwd, win32, a, b, a.declaredWritePaths[i], b.declaredWritePaths[i]);
      }
      NeverAsks(cwd, win32, a);
      NeverAsks(cwd, win32, b);
    } else {
      WriteDecision(cwd, win32, a);
      WriteDecision(cwd, win32, b);
      SameRoots(cwd, win32, a, b, a.targetPath, b.targetPath);
      NeverAsks(cwd, win32, a);
      NeverAsks(cwd, win32, b);
    }
  }

  // The rules of Windows paths are selected exactly when some value begins with a drive
  // letter, a colon and a slash of either kind, or with two backslashes.
  ghost predicate BeginsLikeWindows(v: string) {
    || (exists c: char, rest: string :: IsLetter(c) && (v == [c] + ":\\" + rest || v == [c] + ":/" + rest))
    || (exists rest: string :: v == "\\\\" + rest)
  }

  lemma WindowsExactly(v: string)
    ensures IsWindowsStylePath(v) <==> BeginsLikeWindows(v)
  {
    if IsWindowsStylePath(v) {
      if StartsWith(v, "\\\\") {
        assert v == "\\\\" + v[2..];
      } else {
        assert v == [v[0]] + [':', v[2]] + v[3..];
        assert v == [v[0]] + ":\\" + v[3..] || v == [v[0]] + ":/" + v[3..];
      }
    }
  }

  lemma WindowsSelected(input: Input)
    ensures !Posix(input)
            <==> exists v :: (v == input.targetPath || v in input.writeAllowedPaths || v in input.declaredWritePaths)
                             && BeginsLikeWindows(v)
  {
    forall v: string ensures IsWindowsStylePath(v) <==> BeginsLikeWindows(v) {
      WindowsExactly(v);
    }
  }

  // Elevation is a matter of approval, or denied without a prompt; reading is allowed.
  lemma OtherDecisions(cwd: string, win32: Win32, input: Input)
    ensures input.requiresElevation ==>
              EvaluateLocalPermission(cwd, win32, input) == if input.promptForElevation then RequiresApproval else Deny
    ensures !input.requiresElevation && input.action.Read? ==> EvaluateLocalPermission(cwd, win32, input) == Allow
  {
  }

  // Approval is asked for exactly for elevation with a prompt.
  lemma NeverAsks(cwd: string, win32: Win32, input: Input)
    ensures EvaluateLocalPermission(cwd, win32, input).RequiresApproval?
            <==> input.requiresElevation && input.promptForElevation
  {
  }

  // The texts of idle pieces.
  lemma IdleTexts(name: string)
    requires Name(name)
    ensures Idle(Split("")) && Idle(Split(".")) && Idle(Split(name + "/" + ".."))
  {
    SplitPlain("");
    SplitPlain(".");
    SplitPlain("..");
    SplitPlain(name);
    SplitConcat(name, "..");
  }

  // They may be put behind any path.
  lemma EndSpelling(path: string, idle: string)
    requires path != "" && Idle(Split(idle))
    ensures SamePath(path + "/" + idle, path)
  {
    SplitConcat(path, idle);
    assert (path + "/" + idle)[0] == path[0];
    Shortened(path + "/" + idle, path, Split(path), Split(idle), []);
  }

  // And before any relative one.
  lemma StartSpelling(path: string, idle: string)
    requires path != "" && !IsAbsolute(path) && Idle(Split(idle)) && idle != "" && !IsAbsolute(idle)
    ensures SamePath(idle + "/" + path, path)
  {
    SplitConcat(idle, path);
    assert (idle + "/" + path)[0] == idle[0];
    assert [] + Split(idle) == Split(idle) && [] + Split(path) == Split(path);
    Shortened(idle + "/" + path, path, [], Split(idle), Split(path));
  }

  // So a trailing slash, a trailing "." and a trailing name with its ".." are spellings of
  // any path, and a leading "." or name with its ".." of any relative one.
  lemma OuterSpellings(path: string, name: string)
    requires path != "" && Name(name)
    ensures SamePath(path + "/" + "", path) && SamePath(path + "/" + ".", path)
    ensures SamePath(path + "/" + (name + "/" + ".."), path)
    ensures !IsAbsolute(path) ==> SamePath("." + "/" + path, path) && SamePath((name + "/" + "..") + "/" + path, path)
  {
    IdleTexts(name);
    EndSpelling(path, "");
    EndSpelling(path, ".");
    EndSpelling(path, name + "/" + "..");
    if !IsAbsolute(path) {
      StartSpelling(path, ".");
      assert (name + "/" + "..")[0] == name[0];
      StartSpelling(path, name + "/" + "..");
    }
  }

  lemma Shortened(a: string, b: string, u: seq<string>, idle: seq<string>, v: seq<string>)
    requires IsAbsolute(a) == IsAbsolute(b) && Idle(idle) && Split(a) == u + idle + v && Split(b) == u + v
    ensures SamePath(a, b)
  {
    assert Respelled(a, b);
    var chain := [a, b];
    assert SpellingChain(chain) && chain[0] == a && chain[|chain| - 1] == b;
  }
}
