/** The initials an avatar shows when it has no picture
    (src/components/portal/UserAvatar.tsx). */
module Avatar {
  import opened Text

  /** `.map(n => n[0]).join('')`: the first character of each part; an
      empty part gives `undefined`, which `join` writes as nothing. */
  function FirstChars(parts: seq<string>): string
  {
    if |parts| == 0 then ""
    else (if |parts[0]| > 0 then [parts[0][0]] else "") + FirstChars(parts[1..])
  }

  /** `getInitials(name)`. */
  function Initials(name: string): (r: string)
    ensures |r| <= 2
  {
    Take(ToUpper(FirstChars(Split(name, ' '))), 2)
  }

  /** The characters of `s` that start a word: not a space, and first or
      right after a space (`afterSpace` says whether the text before `s`
      ended in a space, or there was none). */
  function WordStarts(s: string, afterSpace: bool): string
  {
    if |s| == 0 then ""
    else (if s[0] != ' ' && afterSpace then [s[0]] else "") + WordStarts(s[1..], s[0] == ' ')
  }

  lemma {:induction false} FirstCharsAreWordStarts(s: string)
    ensures FirstChars(Split(s, ' ')) == WordStarts(s, true)
    ensures FirstChars(Split(s, ' ')[1..]) == WordStarts(s, false)
  {
    if |s| > 0 {
      FirstCharsAreWordStarts(s[1..]);
      var rest := Split(s[1..], ' ');
      if s[0] == ' ' {
        assert Split(s, ' ') == [""] + rest;
        assert FirstChars([""] + rest) == FirstChars(rest);
      } else {
        var parts := Split(s, ' ');
        assert parts == [[s[0]] + rest[0]] + rest[1..];
        assert parts[1..] == rest[1..];
        assert FirstChars(parts) == [s[0]] + FirstChars(rest[1..]);
        assert FirstChars(rest) == (if |rest[0]| > 0 then [rest[0][0]] else "") + FirstChars(rest[1..]);
      }
    }
  }

  /** The initials are the upper-cased word starts of the name, in order,
      cut to two. */
  lemma InitialsAreWordStarts(name: string)
    ensures Initials(name) == Take(ToUpper(WordStarts(name, true)), 2)
  {
    FirstCharsAreWordStarts(name);
  }

  /** An empty name has no initials. */
  lemma EmptyName()
    ensures Initials("") == ""
  {
  }

  /** A single word gives its upper-cased first letter. */
  lemma OneWord(w: string)
    requires |w| > 0 && ' ' !in w
    ensures Initials(w) == [UpperChar(w[0])]
  {
    SplitWithoutSeparator(w, ' ');
    assert FirstChars([w]) == [w[0]];
  }

  /** Two words give the upper-cased first letter of each. */
  lemma TwoWords(a: string, b: string)
    requires |a| > 0 && |b| > 0 && ' ' !in a && ' ' !in b
    ensures Initials(a + " " + b) == [UpperChar(a[0]), UpperChar(b[0])]
  {
    SplitAround(a, b, ' ');
    SplitWithoutSeparator(a, ' ');
    SplitWithoutSeparator(b, ' ');
    assert a + " " + b == a + [' '] + b;
    assert Split(a + " " + b, ' ') == [a, b];
    assert [a, b][1..] == [b];
    assert [b][1..] == [];
    assert FirstChars([b]) == [b[0]];
    assert FirstChars([a, b]) == [a[0]] + [b[0]];
  }

  /** The page's user. */
  lemma ArjunKumar()
    ensures Initials("Arjun Kumar") == "AK"
  {
    TwoWords("Arjun", "Kumar");
    assert "Arjun" + " " + "Kumar" == "Arjun Kumar";
  }
}
