/** Route strings (src/utils/paths.ts): the base-path normaliser, the
    internal path builder, the base-prefixed path and the two named routes.
    The base path itself comes from the page or the environment and is a
    parameter here. */
module Paths {

  import opened Chars

  /** An `appPath` argument: a string, a number, `undefined` or `null`. Only
      integral numbers are modelled. */
  datatype Segment = Str(s: string) | Number(n: int) | Undefined | Null

  // ------------------------------------------------------------ norm

  /** `replace(/\/$/, "")`: one trailing '/' removed, if there is one. */
  function DropTrailingSlash(p: string): string {
    if |p| > 0 && p[|p| - 1] == '/' then p[..|p| - 1] else p
  }

  /** `norm`: `replace(/\+/g, "/")`, then the trailing slash dropped. */
  function Norm(p: string): string {
    DropTrailingSlash(ReplaceChar(p, '+', '/'))
  }

  /** `norm` turns every '+' into '/' and then removes at most one trailing
      '/': the result is that rewritten text, shortened by one exactly when
      the text ended in '/' or '+', and it holds no '+'. */
  lemma NormSpec(p: string)
    ensures '+' !in Norm(p)
    ensures |p| > 0 && (p[|p| - 1] == '/' || p[|p| - 1] == '+') ==> |Norm(p)| == |p| - 1
    ensures !(|p| > 0 && (p[|p| - 1] == '/' || p[|p| - 1] == '+')) ==> |Norm(p)| == |p|
    ensures forall i :: 0 <= i < |Norm(p)| ==> Norm(p)[i] == if p[i] == '+' then '/' else p[i]
  {
    ReplaceCharRemoves(p, '+', '/');
  }

  // ------------------------------------------------------------ appPath

  /** Digits of a natural number in base 10. */
  function Digits(n: nat): (s: string)
    ensures |s| > 0 && forall i :: 0 <= i < |s| ==> '0' <= s[i] <= '9'
  {
    if n < 10 then [('0' as int + n) as char]
    else Digits(n / 10) + [('0' as int + n % 10) as char]
  }

  /** `String(n)` for an integral number. */
  function NumberText(n: int): (s: string)
    ensures '/' !in s
  {
    var s := if n < 0 then "-" + Digits(-n) else Digits(n);
    assert forall i :: 0 <= i < |s| ==> s[i] != '/';
    s
  }

  /** `.filter(s => s !== undefined && s !== null).map(String)`. */
  function Kept(segs: seq<Segment>): seq<string> {
    if |segs| == 0 then []
    else
      var rest := Kept(segs[1..]);
      match segs[0]
      case Str(s) => [s] + rest
      case Number(n) => [NumberText(n)] + rest
      case Undefined => rest
      case Null => rest
  }

  function StripLeading(s: string): string {
    if |s| > 0 && s[0] == '/' then StripLeading(s[1..]) else s
  }

  function StripTrailing(s: string): string {
    if |s| > 0 && s[|s| - 1] == '/' then StripTrailing(s[..|s| - 1]) else s
  }

  /** `replace(/^\/+|\/+$/g, "")`: every leading and every trailing '/'
      removed. */
  function Strip(s: string): string {
    StripTrailing(StripLeading(s))
  }

  predicate AllSlashes(s: string) {
    forall i :: 0 <= i < |s| ==> s[i] == '/'
  }

  lemma {:induction false} StripLeadingSpec(s: string)
    ensures |StripLeading(s)| <= |s|
    ensures StripLeading(s) == s[|s| - |StripLeading(s)|..]
    ensures AllSlashes(s[..|s| - |StripLeading(s)|])
    ensures StripLeading(s) == [] || StripLeading(s)[0] != '/'
  {
    if |s| > 0 && s[0] == '/' {
      StripLeadingSpec(s[1..]);
      var k := |s| - |StripLeading(s)|;
      assert s[..k] == [s[0]] + s[1..][..k - 1];
    }
  }

  lemma {:induction false} StripTrailingSpec(s: string)
    ensures |StripTrailing(s)| <= |s|
    ensures StripTrailing(s) == s[..|StripTrailing(s)|]
    ensures AllSlashes(s[|StripTrailing(s)|..])
    ensures StripTrailing(s) == [] || StripTrailing(s)[|StripTrailing(s)| - 1] != '/'
  {
    if |s| > 0 && s[|s| - 1] == '/' {
      var p := s[..|s| - 1];
      StripTrailingSpec(p);
      var k := |StripTrailing(s)|;
      assert s[k..] == p[k..] + ['/'];
    }
  }

  /** Stripping keeps a middle slice of the segment: what goes is slashes
      only, and what stays neither starts nor ends with '/'. A segment that
      neither starts nor ends with '/' is kept whole, so stripping twice is
      stripping once. */
  lemma StripSpec(s: string)
    ensures exists i, j :: 0 <= i <= j <= |s| && Strip(s) == s[i..j] &&
                           AllSlashes(s[..i]) && AllSlashes(s[j..])
    ensures Strip(s) == [] || (Strip(s)[0] != '/' && Strip(s)[|Strip(s)| - 1] != '/')
    ensures (s == [] || (s[0] != '/' && s[|s| - 1] != '/')) ==> Strip(s) == s
    ensures Strip(Strip(s)) == Strip(s)
  {
    var a := StripLeading(s);
    StripLeadingSpec(s);
    StripTrailingSpec(a);
    var i := |s| - |a|;
    var j := i + |Strip(s)|;
    assert Strip(s) == s[i..j];
    assert s[j..] == a[|Strip(s)|..];
    if Strip(s) != [] {
      assert Strip(s)[0] == a[0];
    }
  }

  /** Segments joined with '/' between consecutive ones. */
  function Join(parts: seq<string>): string {
    if |parts| == 0 then ""
    else if |parts| == 1 then parts[0]
    else parts[0] + "/" + Join(parts[1..])
  }

  /** The stripped kept segments. */
  function Cleaned(segs: seq<Segment>): (c: seq<string>)
    ensures |c| == |Kept(segs)|
  {
    var k := Kept(segs);
    seq(|k|, i requires 0 <= i < |k| => Strip(k[i]))
  }

  /** `appPath(...segments)`. */
  function AppPath(segs: seq<Segment>): string {
    "/" + Join(Cleaned(segs))
  }

  /** `appPath` always starts with '/', and with no segments it is "/". */
  lemma AppPathShape(segs: seq<Segment>)
    ensures |AppPath(segs)| >= 1 && AppPath(segs)[0] == '/'
    ensures AppPath([]) == "/"
  {
  }

  /** `undefined` and `null` are dropped wherever they stand. */
  lemma {:induction false} KeptSkipsAbsent(a: seq<Segment>, b: seq<Segment>, x: Segment)
    requires x == Undefined || x == Null
    ensures Kept(a + [x] + b) == Kept(a + b)
  {
    if |a| == 0 {
      assert (a + [x] + b)[1..] == b;
      assert a + b == b;
    } else {
      KeptSkipsAbsent(a[1..], b, x);
      assert (a + [x] + b)[1..] == a[1..] + [x] + b;
      assert (a + b)[1..] == a[1..] + b;
    }
  }

  lemma AppPathSkipsAbsent(a: seq<Segment>, b: seq<Segment>, x: Segment)
    requires x == Undefined || x == Null
    ensures AppPath(a + [x] + b) == AppPath(a + b)
  {
    KeptSkipsAbsent(a, b, x);
  }

  /** Reads a joined path back into its segments, splitting at every '/'. */
  function Split(s: string): (r: seq<string>)
    ensures |r| >= 1
  {
    if |s| == 0 then [""]
    else if s[0] == '/' then [""] + Split(s[1..])
    else
      var r := Split(s[1..]);
      [[s[0]] + r[0]] + r[1..]
  }

  lemma {:induction false} SplitCons(p: string, t: string)
    requires '/' !in p
    ensures Split(p + "/" + t) == [p] + Split(t)
  {
    if |p| == 0 {
      assert p + "/" + t == "/" + t;
      assert ("/" + t)[1..] == t;
    } else {
      SplitCons(p[1..], t);
      assert (p + "/" + t)[1..] == p[1..] + "/" + t;
      assert [p[0]] + p[1..] == p;
    }
  }

  lemma {:induction false} SplitNoSlash(p: string)
    requires '/' !in p
    ensures Split(p) == [p]
  {
    if |p| > 0 {
      SplitNoSlash(p[1..]);
      assert [p[0]] + p[1..] == p;
    }
  }

  /** Joining loses nothing when no segment holds a '/': splitting the join
      gives the segments back. */
  lemma {:induction false} SplitJoin(parts: seq<string>)
    requires |parts| >= 1
    requires forall i :: 0 <= i < |parts| ==> '/' !in parts[i]
    ensures Split(Join(parts)) == parts
  {
    if |parts| == 1 {
      SplitNoSlash(parts[0]);
    } else {
      SplitJoin(parts[1..]);
      SplitCons(parts[0], Join(parts[1..]));
    }
  }

  /** When the kept segments hold no '/' at all, the path after the leading
      '/' splits back into exactly those segments. */
  lemma AppPathSplits(segs: seq<Segment>)
    requires |Kept(segs)| >= 1
    requires forall i :: 0 <= i < |Kept(segs)| ==> '/' !in Kept(segs)[i]
    ensures Split(AppPath(segs)[1..]) == Kept(segs)
  {
    var k := Kept(segs);
    forall i | 0 <= i < |k| ensures Cleaned(segs)[i] == k[i] {
      StripSpec(k[i]);
      assert k[i] == [] || (k[i][0] != '/' && k[i][|k[i]| - 1] != '/');
    }
    assert Cleaned(segs) == k;
    SplitJoin(k);
  }

  /** `fullAppPath`: the normalised base path in front of `appPath`, when it
      is not empty. */
  function FullAppPath(rawBase: string, segs: seq<Segment>): string {
    var basePath := Norm(rawBase);
    if basePath != "" then basePath + AppPath(segs) else AppPath(segs)
  }

  /** The full path is the base path followed by the app path, so it
      starts with the base path, and with '/' when the base path is empty. */
  lemma FullAppPathSpec(rawBase: string, segs: seq<Segment>)
    ensures FullAppPath(rawBase, segs) == Norm(rawBase) + AppPath(segs)
    ensures Norm(rawBase) <= FullAppPath(rawBase, segs)
    ensures Norm(rawBase) == "" ==> |FullAppPath(rawBase, segs)| >= 1 && FullAppPath(rawBase, segs)[0] == '/'
  {
    AppPathShape(segs);
  }

  /** `paths.home`. */
  function HomePath(): string { AppPath([]) }

  /** `paths.play(levelId)`. */
  function PlayPath(levelId: string): string { AppPath([Str("play"), Str(levelId)]) }

  /** `paths.home` is "/", and the play route is "/play/" followed by the
      id with its outer slashes stripped. */
  lemma RoutesSpec(levelId: string)
    ensures HomePath() == "/"
    ensures PlayPath(levelId) == "/play/" + Strip(levelId)
  {
    StripSpec("play");
    assert Strip("play") == "play";
    var segs := [Str("play"), Str(levelId)];
    assert segs[1..][1..] == [];
    assert Kept(segs[1..]) == [levelId];
    assert Kept(segs) == ["play", levelId];
    var c := Cleaned(segs);
    assert c == ["play", Strip(levelId)];
    assert Join(c) == "play" + "/" + Strip(levelId) by {
      assert c[1..] == [Strip(levelId)];
    }
  }
}
