/** Fitting coloured text into columns (tools/kanban-tree/render.go, line, clip, visibleLen). */
module KanbanText {

  const Esc: char := '\U{1B}'

  const Reset: string := [Esc] + "[0m"

  // The narrowest a title is squeezed before the trailing detail is dropped.
  const MinTitle := 24

  // Whether a colour sequence is still open at the end: it closes at the next m.
  function Open(s: string): bool {
    if s == "" then false
    else if Open(s[..|s| - 1]) then s[|s| - 1] != 'm'
    else s[|s| - 1] == Esc
  }

  // What a terminal shows.
  function Strip(s: string): string {
    if s == "" then ""
    else
      var init, last := s[..|s| - 1], s[|s| - 1];
      Strip(init) + if Open(init) || last == Esc then "" else [last]
  }

  lemma {:induction false} AppendStrips(s: string, c: char)
    ensures Open(s + [c]) == (if Open(s) then c != 'm' else c == Esc)
    ensures Strip(s + [c]) == Strip(s) + if Open(s) || c == Esc then "" else [c]
  {
    assert (s + [c])[..|s|] == s;
  }

  // Joined after closed text, the parts are shown one after the other.
  lemma {:induction false} StripConcat(a: string, b: string)
    requires !Open(a)
    ensures Strip(a + b) == Strip(a) + Strip(b) && Open(a + b) == Open(b)
  {
    if b == "" {
      assert a + b == a;
    } else {
      var init, last := b[..|b| - 1], b[|b| - 1];
      assert b == init + [last] && a + b == (a + init) + [last];
      StripConcat(a, init);
      AppendStrips(a + init, last);
      AppendStrips(init, last);
    }
  }

  lemma {:induction false} PlainIsShown(s: string)
    requires Esc !in s
    ensures Strip(s) == s && !Open(s)
  {
    if s != "" {
      assert s == s[..|s| - 1] + [s[|s| - 1]];
      PlainIsShown(s[..|s| - 1]);
    }
  }

  lemma {:induction false} ResetIsInvisible()
    ensures Strip(Reset) == "" && !Open(Reset)
  {
    assert Reset[..3] == [Esc] + "[0" && Reset[..2] == [Esc] + "[" && Reset[..1] == [Esc] && Reset[..0] == "";
    assert Reset[..3][..2] == Reset[..2] && Reset[..2][..1] == Reset[..1] && Reset[..1][..0] == "";
    assert Open(Reset[..1]) && Open(Reset[..2]) && Open(Reset[..3]);
    assert Strip(Reset[..1]) == "" && Strip(Reset[..2]) == "" && Strip(Reset[..3]) == "";
  }

  lemma {:induction false} ShorterShowsPrefix(s: string, i: nat)
    requires i <= |s|
    ensures Strip(s[..i]) <= Strip(s)
    decreases |s| - i
  {
    if i < |s| {
      assert s[..i + 1] == s[..i] + [s[i]];
      AppendStrips(s[..i], s[i]);
      ShorterShowsPrefix(s, i + 1);
    } else {
      assert s[..i] == s;
    }
  }

  lemma {:induction false} OpenNeedsEscape(s: string)
    requires Open(s)
    ensures Esc in s
  {
    assert s == s[..|s| - 1] + [s[|s| - 1]];
    if s[|s| - 1] != Esc {
      OpenNeedsEscape(s[..|s| - 1]);
    }
  }

  // Counts printable columns, ignoring colour escapes.
  method VisibleLen(text: string) returns (n: nat)
    ensures n == |Strip(text)|
  {
    n := 0;
    var escape := false;
    for i := 0 to |text|
      invariant n == |Strip(text[..i])| && escape == Open(text[..i])
    {
      assert text[..i + 1] == text[..i] + [text[i]];
      AppendStrips(text[..i], text[i]);
      if escape {
        if text[i] == 'm' {
          escape := false;
        }
      } else if text[i] == Esc {
        escape := true;
      } else {
        n := n + 1;
      }
    }
    assert text[..|text|] == text;
  }

  // The text was cut at a visible character and the marker stands for the rest.
  ghost predicate ClippedAt(text: string, n: nat, marker: string, r: string, k: nat) {
    && k < |text| && !Open(text[..k])
    && r == text[..k] + marker + (if Esc in text[..k] then Reset else "")
    && |Strip(text[..k])| + |marker| == n
  }

  ghost predicate Clipped(text: string, n: nat, marker: string, r: string) {
    exists k: nat :: ClippedAt(text, n, marker, r, k)
  }

  lemma {:induction false} IsClipped(text: string, n: nat, marker: string, r: string, k: nat)
    requires ClippedAt(text, n, marker, r, k)
    ensures Clipped(text, n, marker, r)
  {
  }

  lemma {:induction false} ClippedShows(text: string, n: nat, marker: string, r: string)
    requires Esc !in marker && |marker| <= n && Clipped(text, n, marker, r)
    ensures n - |marker| <= |Strip(text)|
    ensures Strip(r) == Strip(text)[..n - |marker|] + marker && !Open(r)
    ensures Esc in r ==> Esc in text
  {
    hide Strip, Open;
    var k: nat :| ClippedAt(text, n, marker, r, k);
    ShorterShowsPrefix(text, k);
    PlainIsShown(marker);
    StripConcat(text[..k], marker);
    assert Strip(text)[..n - |marker|] == Strip(text[..k]);
    ClosedByReset(text[..k] + marker);
    assert Esc in r ==> Esc in text[..k];
  }

  lemma {:induction false} ClosedByReset(s: string)
    requires !Open(s)
    ensures Strip(s + Reset) == Strip(s) && !Open(s + Reset)
    ensures Strip(s + "") == Strip(s) && !Open(s + "")
  {
    hide Strip, Open;
    ResetIsInvisible();
    StripConcat(s, Reset);
    assert s + "" == s;
  }

  /** Clips to exactly n columns: a prefix of what the text shows, then the marker. Text that
      already fits, or a budget the marker itself fills, is left alone. */
  method Clip(text: string, n: int, marker: string) returns (r: string)
    requires Esc !in marker
    ensures n <= |marker| || |Strip(text)| <= n ==> r == text
    ensures |marker| < n < |Strip(text)| ==>
              && |Strip(r)| == n && !Open(r)
              && Strip(r) == Strip(text)[..n - |marker|] + marker
              && Clipped(text, n, marker, r)
  {
    PlainIsShown(marker);
    var columns := VisibleLen(marker);
    var shown := VisibleLen(text);
    if n <= columns || shown <= n {
      return text;
    }
    hide Strip, Open, Clipped;
    r := "";
    var visible, escape, coloured := 0, false, false;
    var i := 0;
    var cut := false;
    while i < |text| && !cut
      invariant 0 <= i <= |text|
      invariant !cut ==> r == text[..i] && visible == |Strip(text[..i])| <= n - columns
      invariant !cut ==> escape == Open(text[..i]) && (coloured <==> Esc in text[..i])
      invariant cut ==> ClippedAt(text, n, marker, r, i)
      decreases |text| - i, !cut
    {
      assert text[..i + 1] == text[..i] + [text[i]];
      AppendStrips(text[..i], text[i]);
      if escape {
        OpenNeedsEscape(text[..i]);
        r := r + [text[i]];
        if text[i] == 'm' {
          escape := false;
        }
        i := i + 1;
      } else if text[i] == Esc {
        escape, coloured := true, true;
        r := r + [text[i]];
        i := i + 1;
      } else if visible == n - columns {
        r := r + marker;
        if coloured {
          r := r + Reset;
        }
        cut := true;
      } else {
        r := r + [text[i]];
        visible := visible + 1;
        i := i + 1;
      }
    }
    assert text[..|text|] == text;
    IsClipped(text, n, marker, r, i);
    assert Clipped(text, n, marker, r);
    ClippedShows(text, n, marker, r);
  }

  function Spaces(n: nat): string {
    seq(n, i => ' ')
  }

  lemma {:induction false} SpacesShow(n: nat)
    ensures Strip(Spaces(n)) == Spaces(n) && !Open(Spaces(n)) && |Spaces(n)| == n
  {
    PlainIsShown(Spaces(n));
  }

  // Room for a title beside the detail column.
  predicate HasRoom(width: int, prefix: string, meta: string) {
    width - |Strip(meta)| - 2 - |Strip(prefix)| >= MinTitle
  }

  // What is shown of a text that must fit n columns: all of it, or its beginning and the ellipsis.
  // An ellipsis that fills the columns leaves no place to cut.
  function Shortened(text: string, n: int, ellipsis: string): string {
    if n <= |ellipsis| || |text| <= n then text else text[..n - |ellipsis|] + ellipsis
  }

  // The detail ends in the last column, at least two columns after the title.
  ghost predicate Aligned(
    r: string, width: int, prefix: string, left: string, meta: string, room: int, ellipsis: string)
  {
    exists kept: string, pad: nat ::
      && pad >= 2
      && r == prefix + kept + Spaces(pad) + meta
      && !Open(kept)
      && (if |Strip(left)| <= room then kept == left
          else |Strip(kept)| == room && Strip(kept) == Shortened(Strip(left), room, ellipsis))
      && |Strip(prefix)| + |Strip(kept)| + pad + |Strip(meta)| == width
  }

  /** One line within a width budget. With room the detail is flush right and the line fills
      the width exactly; without it the title keeps the whole budget, and the line is too
      wide exactly when the ellipsis leaves no place to cut. */
  method FitLine(prefix: string, left: string, meta: string, width: int, ellipsis: string) returns (r: string)
    requires Esc !in ellipsis && |ellipsis| < MinTitle
    requires !Open(prefix) && !Open(left) && !Open(meta)
    ensures width <= 0 ==> r == prefix + left + if meta == "" then "" else "  " + meta
    ensures width > 0 && meta != "" && HasRoom(width, prefix, meta) ==>
              && |Strip(r)| == width
              && Aligned(r, width, prefix, left, meta, width - |Strip(meta)| - 2 - |Strip(prefix)|, ellipsis)
    ensures width > 0 && (meta == "" || !HasRoom(width, prefix, meta)) ==>
              (|Strip(r)| > width <==>
               |Strip(left)| > width - |Strip(prefix)| && width - |Strip(prefix)| <= |ellipsis|)
    ensures width > 0 && (meta == "" || !HasRoom(width, prefix, meta)) ==>
              var budget := width - |Strip(prefix)|;
              && Strip(r) == Strip(prefix) + Shortened(Strip(left), budget, ellipsis)
              && (Strip(left) == Shortened(Strip(left), budget, ellipsis) ==> r == prefix + left)
  {
    hide Strip, Open, Clipped;
    if width <= 0 {
      r := prefix + left;
      if meta != "" {
        r := prefix + (left + ("  " + meta));
        assert r == prefix + left + ("  " + meta);
      }
      return;
    }
    var prefixLen := VisibleLen(prefix);
    var leftLen := VisibleLen(left);
    var used := prefixLen + leftLen;
    var budget := width - prefixLen;
    var metaLen := VisibleLen(meta);
    var room := width - metaLen - 2;
    if meta == "" || room - prefixLen < MinTitle {
      var kept := Clip(left, budget, ellipsis);
      StripConcat(prefix, kept);
      r := prefix + kept;
      return;
    }
    var kept := left;
    if used > room {
      kept := Clip(left, room - prefixLen, ellipsis);
      var keptLen := VisibleLen(kept);
      used := prefixLen + keptLen;
    }
    r := prefix + kept + Spaces(width - used - metaLen) + meta;
    LineWidth(prefix, kept, width - used - metaLen, meta);
    assert Aligned(r, width, prefix, left, meta, room - prefixLen, ellipsis);
  }

  lemma {:induction false} LineWidth(prefix: string, kept: string, pad: nat, meta: string)
    requires !Open(prefix) && !Open(kept) && !Open(meta)
    ensures |Strip(prefix + kept + Spaces(pad) + meta)| == |Strip(prefix)| + |Strip(kept)| + pad + |Strip(meta)|
  {
    SpacesShow(pad);
    StripConcat(prefix, kept);
    StripConcat(prefix + kept, Spaces(pad));
    StripConcat(prefix + kept + Spaces(pad), meta);
  }
}
