/** The line-ending normaliser (scripts/normalize-eol.mjs): CRLF and lone CR
    become LF, and each listed file is rewritten only when that changes it.
    The file system is an in-memory map from path to text. */
module Eol {

  import opened Chars

  /** `replace(/\r\n/g, "\n")`: the pairs are found left to right without
      overlap. */
  function CrlfToLf(s: string): string {
    if |s| == 0 then ""
    else if |s| >= 2 && s[0] == '\r' && s[1] == '\n' then "\n" + CrlfToLf(s[2..])
    else [s[0]] + CrlfToLf(s[1..])
  }

  /** The normalisation expression: CRLF first, then the remaining CRs
      (`replace(/\r/g, "\n")`). */
  function Normalize(s: string): string {
    ReplaceChar(CrlfToLf(s), '\r', '\n')
  }

  /** An independent reading of the same rule, in one pass: every line break
      written as CRLF or as a lone CR becomes one LF, everything else is
      copied. */
  function OnePass(s: string): string {
    if |s| == 0 then ""
    else if s[0] == '\r' then "\n" + OnePass(if |s| >= 2 && s[1] == '\n' then s[2..] else s[1..])
    else [s[0]] + OnePass(s[1..])
  }

  /** The two passes of the source do what the one-pass rule says. */
  lemma {:induction false} NormalizeIsOnePass(s: string)
    ensures Normalize(s) == OnePass(s)
  {
    if |s| > 0 {
      if |s| >= 2 && s[0] == '\r' && s[1] == '\n' {
        NormalizeIsOnePass(s[2..]);
        ReplaceCharAppend("\n", CrlfToLf(s[2..]), '\r', '\n');
      } else {
        NormalizeIsOnePass(s[1..]);
        ReplaceCharAppend([s[0]], CrlfToLf(s[1..]), '\r', '\n');
      }
    }
  }

  /** The normalised text holds no CR. */
  lemma NormalizeNoCr(s: string)
    ensures '\r' !in Normalize(s)
  {
    var r := Normalize(s);
    assert forall i :: 0 <= i < |r| ==> r[i] != '\r';
  }

  /** Text without CR is left as it is. */
  lemma {:induction false} NormalizeKeepsLf(s: string)
    requires '\r' !in s
    ensures Normalize(s) == s
  {
    if |s| > 0 {
      NormalizeKeepsLf(s[1..]);
      ReplaceCharAppend([s[0]], CrlfToLf(s[1..]), '\r', '\n');
      assert [s[0]] + s[1..] == s;
    }
  }

  /** Normalising changes the text exactly when it holds a CR, and doing it
      twice is doing it once. */
  lemma NormalizeChangesIff(s: string)
    ensures Normalize(s) != s <==> '\r' in s
    ensures Normalize(Normalize(s)) == Normalize(s)
  {
    NormalizeNoCr(s);
    NormalizeKeepsLf(Normalize(s));
    if '\r' !in s {
      NormalizeKeepsLf(s);
    }
  }

  /** Whether the script rewrites the file at `path` in `files`: it exists
      and its normalised text differs. */
  predicate Rewrites(files: map<string, string>, path: string) {
    path in files && Normalize(files[path]) != files[path]
  }

  /** The files after the loop has handled one path. */
  function Step(files: map<string, string>, path: string): map<string, string> {
    if Rewrites(files, path) then files[path := Normalize(files[path])] else files
  }

  /** The files after the loop over `paths`. */
  function AfterAll(files: map<string, string>, paths: seq<string>): map<string, string> {
    if |paths| == 0 then files else Step(AfterAll(files, paths[..|paths| - 1]), paths[|paths| - 1])
  }

  /** The `changed` counter after the loop over `paths`. */
  function ChangedCount(files: map<string, string>, paths: seq<string>): nat {
    if |paths| == 0 then 0
    else ChangedCount(files, paths[..|paths| - 1]) +
         (if Rewrites(AfterAll(files, paths[..|paths| - 1]), paths[|paths| - 1]) then 1 else 0)
  }

  /** After the loop every listed file that exists holds no CR, no file
      appears or disappears, unlisted files are untouched, and at most one
      rewrite is counted per listed path. */
  lemma {:induction false} AfterAllSpec(files: map<string, string>, paths: seq<string>)
    ensures AfterAll(files, paths).Keys == files.Keys
    ensures forall p :: p in files && p in paths ==> '\r' !in AfterAll(files, paths)[p]
    ensures forall p :: p in files && p !in paths ==> AfterAll(files, paths)[p] == files[p]
    ensures ChangedCount(files, paths) <= |paths|
  {
    if |paths| > 0 {
      var init := paths[..|paths| - 1];
      var last := paths[|paths| - 1];
      AfterAllSpec(files, init);
      var before := AfterAll(files, init);
      if last in before {
        NormalizeChangesIff(before[last]);
        NormalizeNoCr(before[last]);
      }
      assert forall p :: p in paths ==> p in init || p == last;
    }
  }

  /** Nothing is counted exactly when no listed file held a CR to begin
      with; then no file changes. */
  lemma {:induction false} NothingChanged(files: map<string, string>, paths: seq<string>)
    ensures ChangedCount(files, paths) == 0 <==>
      forall i :: 0 <= i < |paths| && paths[i] in files ==> '\r' !in files[paths[i]]
    ensures ChangedCount(files, paths) == 0 ==> AfterAll(files, paths) == files
  {
    if |paths| > 0 {
      var init := paths[..|paths| - 1];
      var last := paths[|paths| - 1];
      NothingChanged(files, init);
      AfterAllSpec(files, init);
      var before := AfterAll(files, init);
      if last in files {
        NormalizeChangesIff(before[last]);
        if ChangedCount(files, init) == 0 {
          NormalizeChangesIff(files[last]);
        } else if last in init {
          assert '\r' !in before[last];
        }
      }
      assert forall i :: 0 <= i < |init| ==> paths[i] == init[i];
    }
  }

  /** The files the script can read and write. */
  class FileSystem {
    var files: map<string, string>

    constructor (initial: map<string, string>)
      ensures files == initial
    {
      files := initial;
    }
  }

  /** The script's loop: for each path, read the file (a missing one is
      skipped), normalise it, write it back and count it only when the text
      changed. Gives back the counter. */
  method NormalizeFiles(fs: FileSystem, paths: seq<string>) returns (changed: nat)
    modifies fs
    ensures fs.files == AfterAll(old(fs.files), paths)
    ensures changed == ChangedCount(old(fs.files), paths)
  {
    changed := 0;
    for i := 0 to |paths|
      invariant fs.files == AfterAll(old(fs.files), paths[..i])
      invariant changed == ChangedCount(old(fs.files), paths[..i])
    {
      assert paths[..i + 1][..i] == paths[..i];
      var f := paths[i];
      if f in fs.files {
        var raw := fs.files[f];
        var normalized := ReplaceChar(CrlfToLf(raw), '\r', '\n');
        if normalized != raw {
          fs.files := fs.files[f := normalized];
          changed := changed + 1;
        }
      }
    }
    assert paths[..|paths|] == paths;
  }
}
