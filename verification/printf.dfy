/**
  The part of `printf`-style formatting (ISO C11 section 7.21.6.1) the sensor
  task relies on: ordinary characters are copied, `%%` writes a percent sign,
  and a `d` conversion with optional `-` flags and an optional decimal field
  width writes one `int` argument in decimal, padded with spaces to the field
  width — on the right when the `-` flag is given, on the left otherwise.
  Any other directive is outside this model and makes formatting fail.
 */
module Printf {
  import opened Wrappers
  import opened Decimal

  /** A parsed `d` conversion specification. */
  datatype ConvSpec = ConvSpec(leftJustify: bool, width: nat)

  datatype Piece = Literal(c: char) | Convert(spec: ConvSpec)

  function Spaces(k: nat): (s: string)
    ensures |s| == k
    ensures forall i :: 0 <= i < k ==> s[i] == ' '
  {
    seq(k, _ => ' ')
  }

  /** The characters a `d` conversion writes for `x` before any padding. */
  function ConvertD(x: int): (s: string)
    ensures x >= 0 ==> s == Digits(x)
    ensures x < 0 ==> |s| >= 2 && s[0] == '-' && s[1..] == Digits(-x)
  {
    if x < 0 then "-" + Digits(-x) else Digits(x)
  }

  /** A conversion result placed in its field: the field is `width` characters
      wide unless the conversion is longer, in which case it is widened. */
  function Field(spec: ConvSpec, x: int): (f: string)
    ensures |f| == if |ConvertD(x)| < spec.width then spec.width else |ConvertD(x)|
    ensures spec.leftJustify ==>
      f[..|ConvertD(x)|] == ConvertD(x) &&
      forall i :: |ConvertD(x)| <= i < |f| ==> f[i] == ' '
    ensures !spec.leftJustify ==>
      f[|f| - |ConvertD(x)|..] == ConvertD(x) &&
      forall i :: 0 <= i < |f| - |ConvertD(x)| ==> f[i] == ' '
  {
    var s := ConvertD(x);
    if |s| >= spec.width then s
    else if spec.leftJustify then s + Spaces(spec.width - |s|)
    else Spaces(spec.width - |s|) + s
  }

  function Prepend<T>(x: T, rest: Option<seq<T>>): Option<seq<T>> {
    match rest
    case None => None
    case Some(r) => Some([x] + r)
  }

  function Concat<T>(x: seq<T>, rest: Option<seq<T>>): Option<seq<T>> {
    match rest
    case None => None
    case Some(r) => Some(x + r)
  }

  /** Number of leading `c` characters of `s`. */
  function LeadingCount(s: string, c: char): (k: nat)
    ensures k <= |s|
    ensures forall i :: 0 <= i < k ==> s[i] == c
    ensures k < |s| ==> s[k] != c
  {
    if s == [] || s[0] != c then 0 else 1 + LeadingCount(s[1..], c)
  }

  /** Parses the directive that follows a `%`: flags, then width, then `d`;
      gives the specification and the rest of the format after the `d`. */
  function ParseDirective(s: string): (r: Option<(ConvSpec, string)>)
    ensures r.Some? ==> |r.value.1| < |s|
  {
    var flags := LeadingCount(s, '-');
    var t := s[flags..];
    var w := DigitRun(t);
    var u := t[|w|..];
    if |w| > 0 && w[0] == '0' then None  // the `0` flag is not modelled
    else if u == [] || u[0] != 'd' then None
    else Some((ConvSpec(flags > 0, ParseDigits(w)), u[1..]))
  }

  /** Splits a format string into literal characters and conversions. */
  function ParseFormat(fmt: string): (r: Option<seq<Piece>>)
    decreases |fmt|
  {
    if fmt == [] then Some([])
    else if fmt[0] != '%' then Prepend(Literal(fmt[0]), ParseFormat(fmt[1..]))
    else if |fmt| >= 2 && fmt[1] == '%' then Prepend(Literal('%'), ParseFormat(fmt[2..]))
    else
      match ParseDirective(fmt[1..])
      case None => None
      case Some((spec, rest)) => Prepend(Convert(spec), ParseFormat(rest))
  }

  /** Writes the pieces, each conversion consuming the next argument; a
      conversion with no argument left fails. Unused arguments are ignored. */
  function Render(pieces: seq<Piece>, args: seq<int>): (r: Option<string>)
  {
    if pieces == [] then Some([])
    else match pieces[0]
      case Literal(c) => Prepend(c, Render(pieces[1..], args))
      case Convert(spec) =>
        if args == [] then None
        else Concat(Field(spec, args[0]), Render(pieces[1..], args[1..]))
  }

  /** The text `sprintf(buf, fmt, args...)` would produce. */
  function Format(fmt: string, args: seq<int>): Option<string> {
    match ParseFormat(fmt)
    case None => None
    case Some(pieces) => Render(pieces, args)
  }

  function Literals(s: string): (ps: seq<Piece>)
    ensures |ps| == |s|
    ensures forall i :: 0 <= i < |s| ==> ps[i] == Literal(s[i])
  {
    if s == [] then [] else [Literal(s[0])] + Literals(s[1..])
  }

  lemma PrependConcat<X>(c: X, t: seq<X>, r: Option<seq<X>>)
    ensures Prepend(c, Concat(t, r)) == Concat([c] + t, r)
  {
    if r.Some? {
      assert [c] + (t + r.value) == [c] + t + r.value;
    }
  }

  lemma ConcatEmpty<X>(r: Option<seq<X>>)
    ensures Concat([], r) == r
  {
    if r.Some? {
      assert [] + r.value == r.value;
    }
  }

  /** A format with no `%` in its first part parses as those characters, literally. */
  lemma {:induction false} ParseFormatLiterals(s: string, rest: string)
    requires forall i :: 0 <= i < |s| ==> s[i] != '%'
    ensures ParseFormat(s + rest) == Concat(Literals(s), ParseFormat(rest))
  {
    if s != [] {
      assert (s + rest)[1..] == s[1..] + rest;
      ParseFormatLiterals(s[1..], rest);
      PrependConcat(Literal(s[0]), Literals(s[1..]), ParseFormat(rest));
    } else {
      assert s + rest == rest;
      ConcatEmpty(ParseFormat(rest));
    }
  }

  lemma RenderCons(c: char, rest: seq<Piece>, args: seq<int>)
    ensures Render([Literal(c)] + rest, args) == Prepend(c, Render(rest, args))
  {
    var ps := [Literal(c)] + rest;
    assert ps[0] == Literal(c);
    assert ps[1..] == rest;
  }

  /** Literal pieces write exactly their characters. */
  lemma {:induction false} RenderLiterals(s: string, rest: seq<Piece>, args: seq<int>)
    ensures Render(Literals(s) + rest, args) == Concat(s, Render(rest, args))
  {
    if s != [] {
      assert Literals(s) + rest == [Literal(s[0])] + (Literals(s[1..]) + rest);
      RenderCons(s[0], Literals(s[1..]) + rest, args);
      RenderLiterals(s[1..], rest, args);
      PrependConcat(s[0], s[1..], Render(rest, args));
      assert [s[0]] + s[1..] == s;
    } else {
      assert Literals(s) + rest == rest;
      ConcatEmpty(Render(rest, args));
    }
  }

  /** The conversion tail `%-5d ` the channel formats end with. */
  lemma ParseLeftJustifiedTail()
    ensures ParseFormat("%-5d ") == Some([Convert(ConvSpec(true, 5)), Literal(' ')])
  {
    var tail := "%-5d ";
    assert ParseDirective(tail[1..]) == Some((ConvSpec(true, 5), " ")) by {
      var s := tail[1..];
      assert s == "-5d ";
      assert LeadingCount(s, '-') == 1;
      assert s[1..] == "5d ";
      DigitRunOfDigitsThen("5", "d ");
      assert "5d " == "5" + "d ";
      assert DigitRun("5d ") == "5";
      assert ParseDigits("5") == 5;
    }
    assert ParseFormat(" ") == Some([Literal(' ')]) by {
      assert " "[1..] == [];
      assert [Literal(' ')] + [] == [Literal(' ')];
    }
    assert tail[1..] == "-5d ";
    assert [Convert(ConvSpec(true, 5))] + [Literal(' ')] == [Convert(ConvSpec(true, 5)), Literal(' ')];
  }

  lemma RenderLeftJustifiedTail(v: int)
    ensures Render([Convert(ConvSpec(true, 5)), Literal(' ')], [v])
      == Some(Field(ConvSpec(true, 5), v) + " ")
  {
    var tailPieces := [Convert(ConvSpec(true, 5)), Literal(' ')];
    assert Render([Literal(' ')], []) == Some(" ") by {
      RenderCons(' ', [], []);
      assert [Literal(' ')] + [] == [Literal(' ')];
      assert Render([], []) == Some([]);
      assert [' '] + [] == " ";
    }
    assert tailPieces[1..] == [Literal(' ')];
    assert [v][1..] == [];
  }

  /** The shape shared by the three channel formats: a prefix without `%`, a
      left-justified `d` conversion of width 5, and one trailing space. */
  lemma LeftJustifiedFormat(prefix: string, v: int)
    requires forall i :: 0 <= i < |prefix| ==> prefix[i] != '%'
    ensures Format(prefix + "%-5d ", [v])
      == Some(prefix + Field(ConvSpec(true, 5), v) + " ")
  {
    var tailPieces := [Convert(ConvSpec(true, 5)), Literal(' ')];
    ParseLeftJustifiedTail();
    ParseFormatLiterals(prefix, "%-5d ");
    RenderLiterals(prefix, tailPieces, [v]);
    RenderLeftJustifiedTail(v);
    assert prefix + (Field(ConvSpec(true, 5), v) + " ") == prefix + Field(ConvSpec(true, 5), v) + " ";
  }
}
