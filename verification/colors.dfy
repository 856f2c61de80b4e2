/** The Ableton clip palette the front end colours sections with, and its CSS rendering
    (src/lib/utils/colors.ts). */
module Colors {
  import Text

  datatype Rgb = Rgb(r: int, g: int, b: int)

  /** `AbletonColor`: a palette name and its red, green and blue components. */
  datatype AbletonColor = AbletonColor(name: string, rgb: Rgb)

  /** `ABLETON_COLORS`, in palette order. */
  const Palette: seq<AbletonColor> := [
    AbletonColor("Red", Rgb(255, 64, 64)),
    AbletonColor("Orange", Rgb(255, 128, 0)),
    AbletonColor("Yellow", Rgb(255, 221, 0)),
    AbletonColor("Light Green", Rgb(128, 255, 0)),
    AbletonColor("Green", Rgb(0, 191, 0)),
    AbletonColor("Cyan", Rgb(0, 255, 221)),
    AbletonColor("Light Blue", Rgb(0, 128, 255)),
    AbletonColor("Blue", Rgb(0, 0, 255)),
    AbletonColor("Purple", Rgb(170, 0, 255)),
    AbletonColor("Magenta", Rgb(255, 0, 221)),
    AbletonColor("Pink", Rgb(255, 128, 170)),
    AbletonColor("Brown", Rgb(153, 102, 51)),
    AbletonColor("Gray", Rgb(153, 153, 153)),
    AbletonColor("Light Gray", Rgb(204, 204, 204)),
    AbletonColor("Dark Gray", Rgb(85, 85, 85)),
    AbletonColor("White", Rgb(255, 255, 255))
  ]

  /** The `Set` of colour names already taken by the sections whose colours are `colors`.
      Colours are compared by name only. */
  function UsedNames(colors: seq<AbletonColor>): set<string> {
    set i | 0 <= i < |colors| :: colors[i].name
  }

  /** The first entry of `palette` from position `k` on whose name is not used, or the
      first entry when every remaining one is taken. */
  function FirstUnused(palette: seq<AbletonColor>, used: set<string>, k: nat): AbletonColor
    requires 0 < |palette| && k <= |palette|
    decreases |palette| - k
  {
    if k == |palette| then palette[0]
    else if palette[k].name !in used then palette[k]
    else FirstUnused(palette, used, k + 1)
  }

  /** What `getNextAvailableColor` returns for sections coloured `colors`. */
  function NextAvailableColor(colors: seq<AbletonColor>): AbletonColor {
    FirstUnused(Palette, UsedNames(colors), 0)
  }

  /** The names of `palette` from `k` up to `n` are all used. */
  predicate AllUsed(palette: seq<AbletonColor>, used: set<string>, k: nat, n: nat)
    requires k <= n <= |palette|
  {
    forall m :: k <= m < n ==> palette[m].name in used
  }

  /** The search from `k` either finds the first unused name at or after `k`, or finds
      none and falls back to the first entry. */
  lemma {:induction false} FirstUnusedSpec(palette: seq<AbletonColor>, used: set<string>, k: nat)
    requires 0 < |palette| && k <= |palette|
    ensures var c := FirstUnused(palette, used, k);
      || (exists n :: k <= n < |palette| && c == palette[n] && palette[n].name !in used
                      && AllUsed(palette, used, k, n))
      || (c == palette[0] && AllUsed(palette, used, k, |palette|))
    decreases |palette| - k
  {
    if k == |palette| {
      assert AllUsed(palette, used, k, |palette|);
    } else if palette[k].name !in used {
      assert AllUsed(palette, used, k, k);
    } else {
      FirstUnusedSpec(palette, used, k + 1);
      var c := FirstUnused(palette, used, k);
      assert c == FirstUnused(palette, used, k + 1);
      if exists n :: k + 1 <= n < |palette| && c == palette[n] && palette[n].name !in used
                     && AllUsed(palette, used, k + 1, n) {
        var n :| k + 1 <= n < |palette| && c == palette[n] && palette[n].name !in used
                 && AllUsed(palette, used, k + 1, n);
        assert AllUsed(palette, used, k, n);
      } else {
        assert AllUsed(palette, used, k, |palette|);
      }
    }
  }

  /** The colour chosen is a palette entry: the first, in palette order, whose name no
      section uses; when all sixteen names are used it is Red, and so it is when there
      are no sections. */
  lemma NextAvailableColorSpec(colors: seq<AbletonColor>)
    ensures NextAvailableColor(colors) in Palette
    ensures (exists n :: 0 <= n < |Palette| && Palette[n].name !in UsedNames(colors)) ==>
      exists n :: 0 <= n < |Palette| && NextAvailableColor(colors) == Palette[n]
        && Palette[n].name !in UsedNames(colors)
        && forall m :: 0 <= m < n ==> Palette[m].name in UsedNames(colors)
    ensures (forall n :: 0 <= n < |Palette| ==> Palette[n].name in UsedNames(colors)) ==>
      NextAvailableColor(colors) == Palette[0] && Palette[0].name == "Red"
    ensures colors == [] ==> NextAvailableColor(colors).name == "Red"
  {
    var used := UsedNames(colors);
    FirstUnusedSpec(Palette, used, 0);
    if colors == [] {
      assert used == {};
      assert Palette[0].name !in used;
    }
  }

  /** Two sections lists whose colours carry the same names, whatever their components,
      get the same next colour. */
  lemma NextAvailableColorByName(a: seq<AbletonColor>, b: seq<AbletonColor>)
    requires |a| == |b|
    requires forall i :: 0 <= i < |a| ==> a[i].name == b[i].name
    ensures NextAvailableColor(a) == NextAvailableColor(b)
  {
    forall x | x in UsedNames(a) ensures x in UsedNames(b) {
      var i :| 0 <= i < |a| && a[i].name == x;
      assert b[i].name == x;
    }
    assert UsedNames(a) == UsedNames(b);
  }

  lemma UsedNamesSnoc(colors: seq<AbletonColor>, i: nat)
    requires i < |colors|
    ensures UsedNames(colors[..i + 1]) == UsedNames(colors[..i]) + {colors[i].name}
  {
    var p := colors[..i + 1];
    forall x | x in UsedNames(colors[..i]) ensures x in UsedNames(p) {
      var j :| 0 <= j < i && colors[..i][j].name == x;
      assert p[j].name == x;
    }
    assert p[i].name == colors[i].name;
  }

  /** `getNextAvailableColor`: builds the set of used names, then walks the palette and
      returns the first entry whose name is free, or the first entry. */
  method GetNextAvailableColor(colors: seq<AbletonColor>) returns (c: AbletonColor)
    ensures c == NextAvailableColor(colors)
  {
    var used: set<string> := {};
    var i := 0;
    while i < |colors|
      invariant 0 <= i <= |colors|
      invariant used == UsedNames(colors[..i])
    {
      UsedNamesSnoc(colors, i);
      used := used + {colors[i].name};
      i := i + 1;
    }
    assert colors[..|colors|] == colors;
    var k := 0;
    while k < |Palette|
      invariant 0 <= k <= |Palette|
      invariant FirstUnused(Palette, used, k) == NextAvailableColor(colors)
    {
      if Palette[k].name !in used {
        return Palette[k];
      }
      k := k + 1;
    }
    return Palette[0];
  }

  /** The arguments of a CSS functional notation, separated by ", ". */
  function Arguments(xs: seq<int>): string
    requires |xs| >= 1
  {
    if |xs| == 1 then Text.IntToString(xs[0])
    else Text.IntToString(xs[0]) + (", " + Arguments(xs[1..]))
  }

  /** `toCssRgb`: the CSS `rgba()` notation (section 4.2.2 of CSS Color Module Level 3)
      of `rgb` with opacity `alpha`, which defaults to 1. */
  function ToCssRgb(rgb: Rgb, alpha: int := 1): (s: string)
    ensures |s| >= 6 && s[..5] == "rgba(" && s[|s| - 1] == ')'
  {
    "rgba(" + Arguments([rgb.r, rgb.g, rgb.b, alpha]) + ")"
  }

  /** A text without commas that is followed by ", " cannot run past the first comma of
      another such text. */
  lemma CommaBound(a: string, b: string, u: string, v: string)
    requires forall k :: 0 <= k < |a| ==> a[k] != ','
    requires a + (", " + u) == b + (", " + v)
    ensures |a| <= |b|
  {
    assert (b + (", " + v))[|b|] == ',';
  }

  /** The comma separates the first argument from the rest unambiguously, since a
      rendered integer holds no comma. */
  lemma SplitAtComma(x: int, y: int, u: string, v: string)
    requires Text.IntToString(x) + (", " + u) == Text.IntToString(y) + (", " + v)
    ensures x == y && u == v
  {
    var a := Text.IntToString(x);
    var b := Text.IntToString(y);
    Text.IntToStringChars(x);
    Text.IntToStringChars(y);
    CommaBound(a, b, u, v);
    CommaBound(b, a, v, u);
    assert a == (a + (", " + u))[..|a|];
    assert b == (b + (", " + v))[..|b|];
    Text.IntToStringInjective(x, y);
    assert u == (a + (", " + u))[|a| + 2..];
    assert v == (b + (", " + v))[|b| + 2..];
  }

  lemma {:induction false} ArgumentsInjective(xs: seq<int>, ys: seq<int>)
    requires |xs| == |ys| >= 1
    requires Arguments(xs) == Arguments(ys)
    ensures xs == ys
  {
    if |xs| == 1 {
      Text.IntToStringInjective(xs[0], ys[0]);
    } else {
      SplitAtComma(xs[0], ys[0], Arguments(xs[1..]), Arguments(ys[1..]));
      ArgumentsInjective(xs[1..], ys[1..]);
      assert xs == [xs[0]] + xs[1..] && ys == [ys[0]] + ys[1..];
    }
  }

  /** Different colours or opacities are never rendered to the same CSS text. */
  lemma ToCssRgbInjective(c: Rgb, a: int, d: Rgb, b: int)
    requires ToCssRgb(c, a) == ToCssRgb(d, b)
    ensures c == d && a == b
  {
    var s := ToCssRgb(c, a);
    var xs := [c.r, c.g, c.b, a];
    var ys := [d.r, d.g, d.b, b];
    assert Arguments(xs) == s[5..|s| - 1];
    assert Arguments(ys) == s[5..|s| - 1];
    ArgumentsInjective(xs, ys);
    assert c.r == xs[0] == ys[0] == d.r;
    assert c.g == xs[1] == ys[1] == d.g;
    assert c.b == xs[2] == ys[2] == d.b;
  }

  /** The rendering of Red at full opacity, with the default alpha. */
  lemma RedCss()
    ensures ToCssRgb(Palette[0].rgb) == "rgba(255, 64, 64, 1)"
  {
    assert Palette[0].rgb == Rgb(255, 64, 64);
    RedArguments();
  }

  lemma RedArguments()
    ensures Arguments([255, 64, 64, 1]) == "255, 64, 64, 1"
  {
    RenderedDigits();
    var a3: seq<int> := [1];
    var a2: seq<int> := [64] + a3;
    var a1: seq<int> := [64] + a2;
    var a0: seq<int> := [255] + a1;
    assert Arguments(a3) == "1";
    ArgumentsCons(a2, "1");
    assert "64" + ", " + "1" == "64, 1";
    ArgumentsCons(a1, "64, 1");
    assert "64" + ", " + "64, 1" == "64, 64, 1";
    ArgumentsCons(a0, "64, 64, 1");
    assert "255" + ", " + "64, 64, 1" == "255, 64, 64, 1";
    assert a0 == [255, 64, 64, 1];
  }

  lemma RenderedDigits()
    ensures Text.IntToString(255) == "255" && Text.IntToString(64) == "64"
    ensures Text.IntToString(1) == "1"
  {
    assert Text.NatToString(25) == "25" by { assert Text.NatToString(2) == "2"; }
    assert Text.NatToString(6) == "6";
  }

  lemma ArgumentsCons(xs: seq<int>, rest: string)
    requires |xs| >= 2 && Arguments(xs[1..]) == rest
    ensures Arguments(xs) == Text.IntToString(xs[0]) + ", " + rest
  {
  }
}
