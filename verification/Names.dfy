/** Turning arbitrary names into DNS labels. */
module Names {

  predicate Alnum(c: char) { 'a' <= c <= 'z' || '0' <= c <= '9' }

  predicate Allowed(c: char) { Alnum(c) || c == '-' }

  /** Lower-casing works character by character and leaves the target alphabet alone. */
  ghost predicate LowerCases(lower: char -> char) { forall c :: Allowed(c) ==> lower(c) == c }

  function Mapped(s: string, f: char -> char): string { seq(|s|, i requires 0 <= i < |s| => f(s[i])) }

  function Dashed(lower: char -> char): char -> char {
    c => if lower(c) == '_' || lower(c) == '.' then '-' else lower(c)
  }

  function Init(s: string): string
    requires s != []
  {
    s[..|s| - 1]
  }

  function Last(s: string): char
    requires s != []
  {
    s[|s| - 1]
  }

  function Stripped(s: string): string {
    if s == [] then [] else if Allowed(Last(s)) then Stripped(Init(s)) + [Last(s)] else Stripped(Init(s))
  }

  /** Replaces every run of dashes by one dash. */
  function Collapsed(s: string): string {
    if |s| < 2 then s
    else if Last(s) == '-' && Last(Init(s)) == '-' then Collapsed(Init(s))
    else Collapsed(Init(s)) + [Last(s)]
  }

  function TrimFront(s: string): string {
    if s != [] && s[0] == '-' then TrimFront(s[1..]) else s
  }

  function TrimBack(s: string): string {
    if s != [] && Last(s) == '-' then TrimBack(Init(s)) else s
  }

  function Normalize(s: string, lower: char -> char): string {
    TrimBack(TrimFront(Collapsed(Stripped(Mapped(s, Dashed(lower))))))
  }

  // ---- what normalisation produces -----------------------------------------

  predicate AllAllowed(s: string) { forall i :: 0 <= i < |s| ==> Allowed(s[i]) }

  predicate NoDouble(s: string) { forall i :: 0 <= i < |s| - 1 ==> s[i] != '-' || s[i + 1] != '-' }

  /** Label syntax apart from length: letters and digits in groups joined by single dashes. */
  predicate IsLabel(s: string) {
    AllAllowed(s) && NoDouble(s) && (s != [] ==> s[0] != '-' && Last(s) != '-')
  }

  lemma {:induction false} StrippedAllowed(s: string)
    ensures AllAllowed(Stripped(s))
    ensures AllAllowed(s) ==> Stripped(s) == s
  {
    if s != [] {
      StrippedAllowed(Init(s));
      assert s == Init(s) + [Last(s)];
    }
  }

  lemma {:induction false} CollapsedShape(s: string)
    ensures AllAllowed(s) ==> AllAllowed(Collapsed(s))
    ensures NoDouble(Collapsed(s))
    ensures s != [] ==> Collapsed(s) != [] && Last(Collapsed(s)) == Last(s)
    ensures NoDouble(s) ==> Collapsed(s) == s
  {
    if |s| >= 2 {
      CollapsedShape(Init(s));
      assert s == Init(s) + [Last(s)];
    }
  }

  lemma {:induction false} TrimFrontShape(s: string)
    ensures AllAllowed(s) ==> AllAllowed(TrimFront(s))
    ensures NoDouble(s) ==> NoDouble(TrimFront(s))
    ensures TrimFront(s) != [] ==> TrimFront(s)[0] != '-'
  {
    if s != [] && s[0] == '-' { TrimFrontShape(s[1..]); }
  }

  lemma {:induction false} TrimBackShape(s: string)
    ensures AllAllowed(s) ==> AllAllowed(TrimBack(s))
    ensures NoDouble(s) ==> NoDouble(TrimBack(s))
    ensures TrimBack(s) != [] ==> Last(TrimBack(s)) != '-' && TrimBack(s)[0] == s[0]
  {
    if s != [] && Last(s) == '-' { TrimBackShape(Init(s)); }
  }

  /** The result is always a label or empty, and labels are exactly the strings left as they are. */
  lemma NormalizeLabels(s: string, lower: char -> char)
    requires LowerCases(lower)
    ensures IsLabel(Normalize(s, lower))
    ensures IsLabel(s) <==> Normalize(s, lower) == s
  {
    var a := Mapped(s, Dashed(lower));
    var b := Stripped(a);
    var c := Collapsed(b);
    var d := TrimFront(c);
    StrippedAllowed(a);
    CollapsedShape(b);
    TrimFrontShape(c);
    TrimBackShape(d);
    if IsLabel(s) {
      assert a == s;
    }
  }

  lemma NormalizeIdempotent(s: string, lower: char -> char)
    requires LowerCases(lower)
    ensures Normalize(Normalize(s, lower), lower) == Normalize(s, lower)
  {
    NormalizeLabels(s, lower);
    NormalizeLabels(Normalize(s, lower), lower);
  }

  // ---- an independent account: the words of a name -------------------------

  /** The words finished so far and the one being read. */
  datatype Scan = Scan(words: seq<string>, word: string)
  {
    function Next(c: char): Scan {
      if c == '-' || c == '_' || c == '.' then
        if word == [] then this else Scan(words + [word], [])
      else if Alnum(c) then Scan(words, word + [c])
      else this
    }

    function All(): seq<string> { if word == [] then words else words + [word] }

    /** The text read so far, once separators are single dashes. */
    function Text(): string { Ended(words) + word }
  }

  /** Reads a lower-cased name: separators end a word, letters and digits extend it, the rest is ignored. */
  function Read(s: string): Scan {
    if s == [] then Scan([], []) else Read(Init(s)).Next(Last(s))
  }

  function Ended(ws: seq<string>): string {
    if ws == [] then [] else Ended(ws[..|ws| - 1]) + ws[|ws| - 1] + ['-']
  }

  function Joined(ws: seq<string>): string {
    if ws == [] then [] else Ended(ws[..|ws| - 1]) + ws[|ws| - 1]
  }

  lemma ReadOne(s: string, c: char)
    ensures Read(s + [c]) == Read(s).Next(c)
  {
    assert Init(s + [c]) == s;
  }

  lemma {:induction false} ReadMapped(s: string, lower: char -> char)
    ensures Read(Stripped(Mapped(s, Dashed(lower)))) == Read(Mapped(s, lower))
  {
    if s != [] {
      var a, b := Mapped(s, Dashed(lower)), Mapped(s, lower);
      ReadMapped(Init(s), lower);
      assert Init(a) == Mapped(Init(s), Dashed(lower)) && Init(b) == Mapped(Init(s), lower);
      ReadOne(Stripped(Init(a)), Last(a));
    }
  }

  lemma {:induction false} ReadCollapsed(s: string)
    ensures Read(Collapsed(s)) == Read(s)
  {
    if |s| >= 2 {
      ReadCollapsed(Init(s));
      ReadOne(Collapsed(Init(s)), Last(s));
    }
  }

  lemma {:induction false} ReadTrimFront(s: string)
    ensures Read(TrimFront(s)) == Read(s)
  {
    if s != [] && s[0] == '-' {
      ReadTrimFront(s[1..]);
      ReadDash(s[1..]);
      assert s == ['-'] + s[1..];
    }
  }

  lemma {:induction false} ReadDash(s: string)
    ensures Read(['-'] + s) == Read(s)
  {
    if s == [] {
      assert Read(['-']) == Read(Init(['-'])).Next('-');
    } else {
      ReadDash(Init(s));
      assert Init(['-'] + s) == ['-'] + Init(s);
    }
  }

  lemma {:induction false} ReadTrimBack(s: string)
    ensures Read(TrimBack(s)).All() == Read(s).All()
  {
    if s != [] && Last(s) == '-' { ReadTrimBack(Init(s)); }
  }

  lemma {:induction false} TextOf(s: string)
    requires AllAllowed(s) && NoDouble(s) && (s != [] ==> s[0] != '-')
    ensures Read(s).Text() == s
    ensures Read(s).word == [] <==> s == [] || Last(s) == '-'
  {
    if s != [] {
      var p := Read(Init(s));
      TextOf(Init(s));
      assert s == Init(s) + [Last(s)];
      if Last(s) == '-' {
        assert (p.words + [p.word])[..|p.words|] == p.words;
      } else {
        assert Ended(p.words) + (p.word + [Last(s)]) == p.Text() + [Last(s)];
      }
    }
  }

  /** Normalising a name joins its words with single dashes. */
  lemma NormalizeJoinsWords(s: string, lower: char -> char)
    requires LowerCases(lower)
    ensures Normalize(s, lower) == Joined(Read(Mapped(s, lower)).All())
  {
    var b := Stripped(Mapped(s, Dashed(lower)));
    var n := Normalize(s, lower);
    ReadMapped(s, lower);
    ReadCollapsed(b);
    ReadTrimFront(Collapsed(b));
    ReadTrimBack(TrimFront(Collapsed(b)));
    NormalizeLabels(s, lower);
    TextOf(n);
    var r := Read(n);
    if n != [] {
      assert (r.words + [r.word])[..|r.words|] == r.words;
    }
  }
}
