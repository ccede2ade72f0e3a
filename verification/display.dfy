/**
  The text surface of the character display as far as the sensor task can
  observe it: clearing blanks every row, and drawing a text at a column of a
  row writes its characters over whatever the row showed there, leaving the
  rest of the row as it was. Rows are unbounded; the physical row width is not
  part of this model.
 */
module Display {
  import opened Printf

  /** Row number to the text the row currently shows; an absent row is blank. */
  type Screen = map<nat, string>

  const Blank: Screen := map[]

  function RowText(s: Screen, row: nat): string {
    if row in s then s[row] else ""
  }

  /** A row that showed `shown`, after `text` is drawn from column `col`. A gap
      between the old text and the column shows as spaces. */
  function Overlay(shown: string, col: nat, text: string): (r: string)
    ensures |r| == if |shown| > col + |text| then |shown| else col + |text|
    ensures r[col..col + |text|] == text
    ensures forall i :: 0 <= i < col ==> r[i] == if i < |shown| then shown[i] else ' '
    ensures forall i :: col + |text| <= i < |r| ==> r[i] == shown[i]
  {
    var base := if |shown| < col then shown + Spaces(col - |shown|) else shown;
    base[..col] + text + (if col + |text| < |base| then base[col + |text|..] else [])
  }

  function Draw(s: Screen, col: nat, row: nat, text: string): (s': Screen)
    ensures RowText(s', row) == Overlay(RowText(s, row), col, text)
    ensures forall r :: r != row ==> RowText(s', r) == RowText(s, r)
  {
    s[row := Overlay(RowText(s, row), col, text)]
  }

  /** Drawing at column 0 a text at least as long as the row shows only that
      text: nothing of the shown row survives. */
  lemma OverlayCovers(shown: string, text: string)
    requires |shown| <= |text|
    ensures Overlay(shown, 0, text) == text
  {
    var r := Overlay(shown, 0, text);
    assert r == r[0..|text|];
  }

  /** Drawing two texts of the same length at column 0, one after the other,
      leaves what drawing only the second would: the first leaves no trace. */
  lemma OverlaySameLength(shown: string, a: string, b: string)
    requires |a| == |b|
    ensures Overlay(Overlay(shown, 0, a), 0, b) == Overlay(shown, 0, b)
  {
    var x := Overlay(Overlay(shown, 0, a), 0, b);
    var y := Overlay(shown, 0, b);
    assert |x| == |y|;
    forall i | 0 <= i < |x|
      ensures x[i] == y[i]
    {
      if i < |b| {
        assert x[i] == x[0..|b|][i];
        assert y[i] == y[0..|b|][i];
      }
    }
  }
}
