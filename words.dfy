/** The alphabet line of the words renderer: the letters in braces separated by `", "`,
    the Russian alphabet when none is given, and a cut to 50 characters. */
module WordsImage {
  import opened Wrappers
  import opened JavaText

  /** The alphabet used when the problem names none: the 33 capitals of Russian. */
  const DefaultAlphabet: string := "АБВГДЕЁЖЗИЙКЛМНОПРСТУФХЦЧШЩЪЫЬЭЮЯ"

  lemma DefaultAlphabetLength()
    ensures |DefaultAlphabet| == 33
  {
  }

  /** The letters of `s` separated by `", "`. */
  function Spaced(s: string): (r: string)
    ensures |s| > 0 ==> |r| == 3 * |s| - 2
    ensures |s| == 0 ==> r == ""
    decreases |s|
  {
    if |s| <= 1 then s else Spaced(s[..|s| - 1]) + ", " + [s[|s| - 1]]
  }

  /** Letter `i` sits at position `3 i`, and a comma and a space follow every letter but
      the last. */
  lemma {:induction false} SpacedAt(s: string, i: nat)
    requires i < |s|
    ensures Spaced(s)[3 * i] == s[i]
    ensures i + 1 < |s| ==> Spaced(s)[3 * i + 1] == ',' && Spaced(s)[3 * i + 2] == ' '
    decreases |s|
  {
    if |s| > 1 {
      var init := s[..|s| - 1];
      if i < |init| {
        SpacedAt(init, i);
        assert init[i] == s[i];
        if i + 1 < |init| {
          assert Spaced(s)[3 * i + 1] == Spaced(init)[3 * i + 1];
        }
      }
    }
  }

  /** The first `3 k - 2` characters are the first `k` letters, spaced. */
  lemma {:induction false} SpacedPrefix(s: string, k: nat)
    requires 1 <= k <= |s|
    ensures Spaced(s)[..3 * k - 2] == Spaced(s[..k])
    decreases |s|
  {
    if k < |s| {
      var init := s[..|s| - 1];
      SpacedPrefix(init, k);
      assert init[..k] == s[..k];
      assert Spaced(s)[..3 * k - 2] == Spaced(init)[..3 * k - 2];
    } else {
      assert s[..k] == s;
    }
  }

  /** The one-letter strings of `s`. */
  function Letters(s: string): (r: seq<string>)
    ensures |r| == |s| && forall i :: 0 <= i < |s| ==> r[i] == [s[i]]
  {
    seq(|s|, i requires 0 <= i < |s| => [s[i]])
  }

  /** The spaced letters are `String.join(", ", letters)`. */
  lemma {:induction false} SpacedIsJoin(s: string)
    ensures Spaced(s) == Join(Letters(s), ", ")
    decreases |s|
  {
    if |s| > 1 {
      var init := s[..|s| - 1];
      SpacedIsJoin(init);
      assert Letters(s) == Letters(init) + [[s[|s| - 1]]];
      JoinSnoc(Letters(init), [s[|s| - 1]], ", ");
    } else if |s| == 1 {
      assert s == [s[0]];
      assert Letters(s) == [s];
    }
  }

  /** `formatAlphabet`: `{}` for a `null` or empty alphabet, otherwise the letters in
      braces separated by `", "`, three characters per letter. */
  function FormatAlphabet(alphabet: Option<string>): (r: string)
    ensures alphabet.None? || alphabet.value == "" ==> r == "{}"
    ensures alphabet.Some? && alphabet.value != "" ==>
              |r| == 3 * |alphabet.value| && r[0] == '{' && r[|r| - 1] == '}'
  {
    if alphabet.None? || |alphabet.value| == 0 then "{}"
    else "{" + Spaced(alphabet.value) + "}"
  }

  /** Between the braces stand the letters, each its own string, joined by `", "`. */
  lemma FormatIsJoin(alphabet: string)
    requires alphabet != ""
    ensures var r := FormatAlphabet(Some(alphabet));
      r == "{" + Join(Letters(alphabet), ", ") + "}"
  {
    SpacedIsJoin(alphabet);
  }

  /** `formatAlphabet` as the loop it is: each letter, then `", "` unless it is the
      last. */
  method FormatAlphabetLoop(alphabet: Option<string>) returns (formatted: string)
    ensures formatted == FormatAlphabet(alphabet)
  {
    if alphabet.None? || |alphabet.value| == 0 {
      return "{}";
    }
    var chars := alphabet.value;
    formatted := "{";
    for i := 0 to |chars|
      invariant formatted == "{" + Spaced(chars[..i]) + (if 0 < i < |chars| then ", " else "")
    {
      assert chars[..i + 1][..i] == chars[..i];
      formatted := formatted + [chars[i]];
      if i < |chars| - 1 {
        formatted := formatted + ", ";
      }
    }
    assert chars[..|chars|] == chars;
    formatted := formatted + "}";
  }

  /** The label in front of the letters. */
  const Label: string := "Алфавит: "

  /** The alphabet drawn: the record's, or the default one when it is `null` or
      empty. */
  function ChosenAlphabet(alphabet: Option<string>): (r: string)
    ensures r != ""
    ensures alphabet.Some? && alphabet.value != "" ==> r == alphabet.value
  {
    if alphabet.None? || |alphabet.value| == 0 then DefaultAlphabet else alphabet.value
  }

  /** Text above 50 characters keeps its first 47 and ends in `...}`. */
  function Cut(text: string): (r: string)
    ensures |r| <= 51
    ensures |text| <= 50 ==> r == text
    ensures |text| > 50 ==> r == text[..47] + "...}"
  {
    if |text| > 50 then text[..47] + "...}" else text
  }

  /** The alphabet line `drawAlphabetAndWordInfo` draws for the alphabet of the record:
      the label and the formatted letters of the chosen alphabet, cut to 51 characters at
      most, always beginning with the label and ending with a brace. */
  function AlphabetText(alphabet: Option<string>): (r: string)
    ensures |Label| < |r| <= 51
    ensures r[..|Label|] == Label && r[|r| - 1] == '}'
  {
    var text := Label + FormatAlphabet(Some(ChosenAlphabet(alphabet)));
    LabelLength();
    assert text[..|Label|] == Label;
    assert |text| > 50 ==> Cut(text)[..|Label|] == text[..|Label|];
    Cut(text)
  }

  lemma LabelLength()
    ensures |Label| == 9
  {
  }

  /** Cutting a formatted alphabet after the label keeps its first 38 characters. */
  lemma CutAt47(f: string)
    requires |f| > 41
    ensures (Label + f)[..47] == Label + f[..38]
  {
    LabelLength();
  }

  /** An alphabet of 14 letters or more is cut after its first 13 letters. */
  lemma LongAlphabetCut(alphabet: string)
    requires |alphabet| >= 14
    ensures AlphabetText(Some(alphabet)) == Label + "{" + Spaced(alphabet[..13]) + "...}"
  {
    var f := FormatAlphabet(Some(alphabet));
    LabelLength();
    CutAt47(f);
    SpacedPrefix(alphabet, 13);
    assert f[..38] == "{" + Spaced(alphabet)[..37];
  }

  /** The line is cut exactly when the alphabet has 14 letters or more, and then shows
      its first 13 letters. */
  lemma AlphabetCut(alphabet: string)
    requires alphabet != ""
    ensures |alphabet| <= 13 ==> AlphabetText(Some(alphabet)) == Label + "{" + Spaced(alphabet) + "}"
    ensures |alphabet| >= 14 ==> AlphabetText(Some(alphabet)) == Label + "{" + Spaced(alphabet[..13]) + "...}"
  {
    if |alphabet| >= 14 {
      LongAlphabetCut(alphabet);
    } else {
      ShortAlphabetWhole(alphabet);
    }
  }

  /** An alphabet of up to 13 letters is shown whole. */
  lemma ShortAlphabetWhole(alphabet: string)
    requires alphabet != "" && |alphabet| <= 13
    ensures AlphabetText(Some(alphabet)) == Label + "{" + Spaced(alphabet) + "}"
  {
    LabelLength();
    var f := FormatAlphabet(Some(alphabet));
    assert |Label + f| <= 50;
    Regroup(Label, "{", Spaced(alphabet), "}");
  }

  lemma Regroup(a: string, b: string, c: string, d: string)
    ensures a + (b + c + d) == a + b + c + d
  {
  }

  /** With no alphabet the line shows the first 13 Russian capitals and is cut. */
  lemma DefaultAlphabetShown()
    ensures AlphabetText(None) == Label + "{" + Spaced(DefaultAlphabet[..13]) + "...}"
  {
    AlphabetCut(DefaultAlphabet);
  }

  /** The alphabet line of `drawAlphabetAndWordInfo`. */
  method AlphabetLine(alphabet: Option<string>) returns (alphabetText: string)
    ensures alphabetText == AlphabetText(alphabet)
  {
    var letters := alphabet;
    if letters.None? || |letters.value| == 0 {
      letters := Some(DefaultAlphabet);
    }
    assert letters == Some(ChosenAlphabet(alphabet));
    var formattedAlphabet := FormatAlphabetLoop(letters);
    alphabetText := Label + formattedAlphabet;
    if |alphabetText| > 50 {
      var maxLength := 47;
      alphabetText := alphabetText[..maxLength] + "...}";
    }
  }
}
