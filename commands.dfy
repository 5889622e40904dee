/**
  The player command line. Each launch runs the external media player with
  one video, looping, full screen on a given display, with its window
  geometry pinned to that display's rectangle, without border, on-screen
  controller or default key bindings, and with a log file named after the
  display index.
*/
module Commands {
  import opened Optional
  import opened IntText
  import opened Displays

  /** What one launch asks for: a video, the display index and its rectangle. */
  datatype Command = Command(path: string, screen: int, bounds: Bounds)

  /** `t` occurs in `s` starting at position `i`. */
  predicate OccursAt(s: string, t: string, i: int) {
    0 <= i && i + |t| <= |s| && s[i..i + |t|] == t
  }

  ghost predicate Contains(s: string, t: string) {
    exists i :: OccursAt(s, t, i)
  }

  lemma ContainsMiddle(a: string, t: string, b: string)
    ensures Contains(a + t + b, t)
  {
    assert OccursAt(a + t + b, t, |a|) by {
      assert (a + t + b)[|a|..|a| + |t|] == t;
    }
  }

  /**
   * The geometry argument `WxH+X+Y`; negative offsets come out as `+-1920`.
   * Reading it back with `ParseGeometry` gives the display rectangle again.
   */
  function GeometryText(b: Bounds): (s: string)
    ensures ParseGeometry(s) == Some(b)
  {
    var w, h := IntToDecimal(b.width), IntToDecimal(b.height);
    var x, y := IntToDecimal(b.left), IntToDecimal(b.top);
    DecimalHasNoSeparator(b.width, 'x');
    DecimalHasNoSeparator(b.height, '+');
    DecimalHasNoSeparator(b.left, '+');
    var s := w + "x" + h + "+" + x + "+" + y;
    assert s == w + ['x'] + (h + "+" + x + "+" + y);
    SplitAtFirst(w, 'x', h + "+" + x + "+" + y);
    assert h + "+" + x + "+" + y == h + ['+'] + (x + "+" + y);
    SplitAtFirst(h, '+', x + "+" + y);
    assert x + "+" + y == x + ['+'] + y;
    SplitAtFirst(x, '+', y);
    IntRoundTrip(b.width);
    IntRoundTrip(b.height);
    IntRoundTrip(b.left);
    IntRoundTrip(b.top);
    s
  }

  /**
   * The per-display log file `mpv_log_screen_<screen>.txt`; the display
   * index reads back from the middle of the name.
   */
  function LogFileName(screen: int): (s: string)
    ensures |s| > 19 && s[..15] == "mpv_log_screen_" && s[|s| - 4..] == ".txt"
    ensures ParseInt(s[15..|s| - 4]) == Some(screen)
  {
    var d := IntToDecimal(screen);
    var s := "mpv_log_screen_" + d + ".txt";
    assert s[15..|s| - 4] == d;
    IntRoundTrip(screen);
    s
  }

  /** The pieces of the command line, each argument with its trailing space. */
  function Pieces(player: string, c: Command): seq<string> {
    [ "\"" + player + "\" ",
      "\"" + c.path + "\" ",
      "--loop-file ",
      "--fullscreen ",
      "--fs-screen=" + IntToDecimal(c.screen) + " ",
      "--geometry=" + GeometryText(c.bounds) + " ",
      "--no-osc ",
      "--no-input-default-bindings ",
      "--no-border ",
      "--log-file=" + LogFileName(c.screen) ]
  }

  function Concat(parts: seq<string>): string {
    if parts == [] then [] else parts[0] + Concat(parts[1..])
  }

  /**
   * The shell command line launching the player at `player` for `c`: it
   * carries the video, display index, geometry, log file and fixed flags.
   */
  function CommandLine(player: string, c: Command): (line: string)
    ensures |line| >= |player| + 3 && line[..|player| + 3] == "\"" + player + "\" "
    ensures Contains(line, "\"" + c.path + "\" ")
    ensures Contains(line, "--fs-screen=" + IntToDecimal(c.screen) + " ")
    ensures Contains(line, "--geometry=" + GeometryText(c.bounds) + " ")
    ensures Contains(line, "--log-file=" + LogFileName(c.screen))
    ensures Contains(line, "--loop-file ")
    ensures Contains(line, "--fullscreen ")
    ensures Contains(line, "--no-osc ")
    ensures Contains(line, "--no-input-default-bindings ")
    ensures Contains(line, "--no-border ")
  {
    var parts := Pieces(player, c);
    ConcatContains(parts, 1);
    ConcatContains(parts, 2);
    ConcatContains(parts, 3);
    ConcatContains(parts, 4);
    ConcatContains(parts, 5);
    ConcatContains(parts, 6);
    ConcatContains(parts, 7);
    ConcatContains(parts, 8);
    ConcatContains(parts, 9);
    Concat(parts)
  }

  /** Splits `s` at the first occurrence of `sep`. */
  function SplitAt(s: string, sep: char): (r: Option<(string, string)>)
    ensures r.None? ==> sep !in s
    ensures r.Some? ==> s == r.value.0 + [sep] + r.value.1 && sep !in r.value.0
  {
    if s == [] then None
    else if s[0] == sep then Some(([], s[1..]))
    else match SplitAt(s[1..], sep)
      case None => None
      case Some((a, b)) => Some(([s[0]] + a, b))
  }

  /** Reads a geometry argument `WxH+X+Y` back into a rectangle. */
  function ParseGeometry(s: string): Option<Bounds> {
    match SplitAt(s, 'x')
    case None => None
    case Some((w, rest)) =>
      match SplitAt(rest, '+')
      case None => None
      case Some((h, rest2)) =>
        match SplitAt(rest2, '+')
        case None => None
        case Some((x, y)) =>
          match (ParseInt(w), ParseInt(h), ParseInt(x), ParseInt(y))
          case (Some(wv), Some(hv), Some(xv), Some(yv)) => Some(Bounds(xv, yv, wv, hv))
          case _ => None
  }

  lemma {:induction false} SplitAtFirst(a: string, sep: char, b: string)
    requires sep !in a
    ensures SplitAt(a + [sep] + b, sep) == Some((a, b))
  {
    if a != [] {
      SplitAtFirst(a[1..], sep, b);
      assert (a + [sep] + b)[1..] == a[1..] + [sep] + b;
      assert [a[0]] + a[1..] == a;
    }
  }

  lemma DecimalHasNoSeparator(n: int, sep: char)
    requires sep == 'x' || sep == '+'
    ensures sep !in IntToDecimal(n)
  {
  }

  /** Every piece occurs in the concatenation of the pieces. */
  lemma {:induction false} ConcatContains(parts: seq<string>, k: nat)
    requires k < |parts|
    ensures Contains(Concat(parts), parts[k])
  {
    if k == 0 {
      ContainsMiddle([], parts[0], Concat(parts[1..]));
      assert [] + parts[0] + Concat(parts[1..]) == Concat(parts);
    } else {
      ConcatContains(parts[1..], k - 1);
      var i :| OccursAt(Concat(parts[1..]), parts[k], i);
      var s := Concat(parts);
      assert s == parts[0] + Concat(parts[1..]);
      assert s[|parts[0]| + i..|parts[0]| + i + |parts[k]|] == Concat(parts[1..])[i..i + |parts[k]|];
      assert OccursAt(s, parts[k], |parts[0]| + i);
    }
  }
}
