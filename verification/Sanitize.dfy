// Cleaning of free text at the HTTP edge: control characters become spaces, then
// the text is split into fields and rejoined with single spaces.
module Sanitize {

  // unicode.IsControl: general category Cc.
  predicate IsControl(c: char) {
    c as int < 0x20 || 0x7F <= c as int < 0xA0
  }

  // unicode.IsSpace: the Latin-1 cases and the other White_Space characters.
  predicate IsSpace(c: char) {
    var u := c as int;
    || 0x09 <= u <= 0x0D || u == 0x20 || u == 0x85 || u == 0xA0 || u == 0x1680
    || 0x2000 <= u <= 0x200A || u == 0x2028 || u == 0x2029 || u == 0x202F || u == 0x205F || u == 0x3000
  }

  // strings.Map with the control characters mapped to a space.
  function MapControl(s: string): (r: string)
    ensures |r| == |s|
    ensures forall i :: 0 <= i < |s| ==> r[i] == if IsControl(s[i]) then ' ' else s[i]
  {
    seq(|s|, i requires 0 <= i < |s| => if IsControl(s[i]) then ' ' else s[i])
  }

  // The length of the leading run of characters that are not white space.
  function WordLength(s: string): (n: nat)
    ensures n <= |s|
    ensures forall i :: 0 <= i < n ==> !IsSpace(s[i])
    ensures n < |s| ==> IsSpace(s[n])
  {
    if s == [] || IsSpace(s[0]) then 0 else 1 + WordLength(s[1..])
  }

  // strings.Fields: the words between runs of white space.
  function Fields(s: string): seq<string> {
    if s == [] then []
    else if IsSpace(s[0]) then Fields(s[1..])
    else [s[..WordLength(s)]] + Fields(s[WordLength(s)..])
  }

  // strings.Join with a single space.
  function Join(words: seq<string>): string {
    if words == [] then ""
    else if |words| == 1 then words[0]
    else words[0] + " " + Join(words[1..])
  }

  function SanitizeText(s: string): string {
    Join(Fields(MapControl(s)))
  }

  // ---------------------------------------------------------------- words

  ghost predicate IsWord(w: string) {
    w != [] && forall i :: 0 <= i < |w| ==> !IsSpace(w[i])
  }

  ghost predicate AllWords(words: seq<string>) {
    forall i :: 0 <= i < |words| ==> IsWord(words[i])
  }

  lemma {:induction false} FieldsAreWords(s: string)
    ensures AllWords(Fields(s))
    decreases |s|
  {
    if s != [] {
      if IsSpace(s[0]) {
        FieldsAreWords(s[1..]);
      } else {
        FieldsAreWords(s[WordLength(s)..]);
      }
    }
  }

  lemma {:induction false} WordLengthOf(w: string, rest: string)
    requires IsWord(w) && (rest == [] || IsSpace(rest[0]))
    ensures WordLength(w + rest) == |w|
  {
    if |w| == 1 {
      assert (w + rest)[1..] == rest;
    } else {
      assert (w + rest)[1..] == w[1..] + rest;
      WordLengthOf(w[1..], rest);
    }
  }

  // Splitting undoes joining.
  lemma {:induction false} FieldsOfJoin(words: seq<string>)
    requires AllWords(words)
    ensures Fields(Join(words)) == words
  {
    if |words| == 1 {
      WordLengthOf(words[0], "");
      assert words[0] + "" == words[0];
    } else if |words| > 1 {
      FieldsOfJoin(words[1..]);
      var rest := " " + Join(words[1..]);
      WordLengthOf(words[0], rest);
      assert Join(words) == words[0] + rest;
      assert (words[0] + rest)[|words[0]|..] == rest && (words[0] + rest)[..|words[0]|] == words[0];
      assert rest[1..] == Join(words[1..]);
      assert [words[0]] + words[1..] == words;
    }
  }

  // ---------------------------------------------------------------- the normal form

  // No control character, no white space but single inner spaces.
  ghost predicate IsNormal(s: string) {
    && (forall i :: 0 <= i < |s| ==> !IsControl(s[i]) && (IsSpace(s[i]) ==> s[i] == ' '))
    && (s != [] ==> !IsSpace(s[0]) && !IsSpace(s[|s| - 1]))
    && (forall i :: 0 < i < |s| ==> !(IsSpace(s[i - 1]) && IsSpace(s[i])))
  }

  ghost predicate NoControl(words: seq<string>) {
    forall i, j :: 0 <= i < |words| && 0 <= j < |words[i]| ==> !IsControl(words[i][j])
  }

  lemma {:induction false} FieldsKeepNoControl(s: string)
    requires forall i :: 0 <= i < |s| ==> !IsControl(s[i])
    ensures NoControl(Fields(s))
    decreases |s|
  {
    if s != [] {
      if IsSpace(s[0]) {
        FieldsKeepNoControl(s[1..]);
      } else {
        FieldsKeepNoControl(s[WordLength(s)..]);
      }
    }
  }

  lemma {:induction false} JoinIsNormal(words: seq<string>)
    requires AllWords(words) && NoControl(words)
    ensures IsNormal(Join(words))
    ensures words != [] ==> Join(words) != []
  {
    if |words| == 1 {
      assert IsWord(words[0]);
    } else if |words| > 1 {
      var first, rest := words[0], Join(words[1..]);
      assert IsWord(first);
      JoinIsNormal(words[1..]);
      var s := first + " " + rest;
      assert Join(words) == s;
      forall i | 0 <= i < |s|
        ensures s[i] == if i < |first| then first[i] else if i == |first| then ' ' else rest[i - |first| - 1]
      {
      }
    }
  }

  // Whatever comes in, what goes out is in normal form.
  lemma SanitizedIsNormal(s: string)
    ensures IsNormal(SanitizeText(s))
  {
    FieldsAreWords(MapControl(s));
    FieldsKeepNoControl(MapControl(s));
    JoinIsNormal(Fields(MapControl(s)));
  }

  // The words survive exactly as they were.
  lemma SanitizeKeepsWords(s: string)
    ensures Fields(SanitizeText(s)) == Fields(MapControl(s))
  {
    FieldsAreWords(MapControl(s));
    FieldsOfJoin(Fields(MapControl(s)));
  }

  // What follows the first word and its space is in normal form again.
  lemma NormalTail(s: string, n: nat)
    requires IsNormal(s) && n < |s| && IsSpace(s[n])
    ensures n + 1 < |s| && s[n] == ' ' && !IsSpace(s[n + 1])
    ensures IsNormal(s[n + 1..])
  {
    var rest := s[n + 1..];
    assert n + 1 < |s|;
    assert forall i :: 0 <= i < |rest| ==> rest[i] == s[n + 1 + i];
    forall i | 0 < i < |rest|
      ensures !(IsSpace(rest[i - 1]) && IsSpace(rest[i]))
    {
      assert rest[i - 1] == s[n + i] && rest[i] == s[n + 1 + i];
    }
  }

  lemma FieldsSplit(s: string, n: nat)
    requires n == WordLength(s) && 0 < n < |s| && s[n] == ' '
    ensures Fields(s) == [s[..n]] + Fields(s[n + 1..])
    ensures n + 1 < |s| && !IsSpace(s[n + 1]) ==> Fields(s[n + 1..]) != []
  {
    assert s[n..][1..] == s[n + 1..];
  }

  lemma {:induction false} JoinOfFields(s: string)
    requires IsNormal(s)
    ensures Join(Fields(s)) == s
    decreases |s|
  {
    if s != [] {
      var n := WordLength(s);
      if n == |s| {
        OneWord(s);
      } else {
        NormalTail(s, n);
        JoinOfFields(s[n + 1..]);
        JoinSplit(s, n);
      }
    }
  }

  lemma JoinSplit(s: string, n: nat)
    requires n == WordLength(s) && 0 < n && n + 1 < |s| && s[n] == ' ' && !IsSpace(s[n + 1])
    requires Join(Fields(s[n + 1..])) == s[n + 1..]
    ensures Join(Fields(s)) == s
  {
    var words := Fields(s[n + 1..]);
    calc {
      Join(Fields(s));
      { FieldsSplit(s, n); }
      Join([s[..n]] + words);
      { FieldsSplit(s, n); JoinFirst(s[..n], words); }
      s[..n] + " " + Join(words);
      s[..n] + " " + s[n + 1..];
      { CutAtSpace(s, n); }
      s;
    }
  }

  lemma CutAtSpace(s: string, n: nat)
    requires n < |s| && s[n] == ' '
    ensures s == s[..n] + " " + s[n + 1..]
  {
  }

  lemma OneWord(s: string)
    requires s != [] && !IsSpace(s[0]) && WordLength(s) == |s|
    ensures Join(Fields(s)) == s
  {
    assert s[..|s|] == s && s[|s|..] == [];
  }

  lemma JoinFirst(word: string, words: seq<string>)
    requires words != []
    ensures Join([word] + words) == word + " " + Join(words)
  {
    assert ([word] + words)[1..] == words;
  }

  // Exactly the texts in normal form are left as they are; so cleaning twice is cleaning once.
  lemma FixedExactlyIfNormal(s: string)
    ensures SanitizeText(s) == s <==> IsNormal(s)
    ensures SanitizeText(SanitizeText(s)) == SanitizeText(s)
  {
    SanitizedIsNormal(s);
    if IsNormal(s) {
      NormalUnchanged(s);
    }
    NormalUnchanged(SanitizeText(s));
  }

  lemma NormalUnchanged(s: string)
    requires IsNormal(s)
    ensures SanitizeText(s) == s
  {
    assert MapControl(s) == s;
    JoinOfFields(s);
  }

  // Two inputs come out equal exactly if they have the same words.
  lemma EqualExactlyIfSameWords(s: string, t: string)
    ensures SanitizeText(s) == SanitizeText(t) <==> Fields(MapControl(s)) == Fields(MapControl(t))
  {
    SanitizeKeepsWords(s);
    SanitizeKeepsWords(t);
  }

  // Code points that stay as they are wherever they stand: no control character, and
  // no white space of any script.
  ghost predicate Ordinary(u: int) {
    && (0x20 < u < 0x7F || 0xA0 < u)
    && u != 0x1680 && !(0x2000 <= u <= 0x200A)
    && u != 0x2028 && u != 0x2029 && u != 0x202F && u != 0x205F && u != 0x3000
  }

  // In terms of code points: nothing but these and spaces gets through, and no space
  // at either end or beside another.
  lemma SanitizedChars(s: string)
    ensures var r := SanitizeText(s);
      && (forall i :: 0 <= i < |r| ==> r[i] == ' ' || Ordinary(r[i] as int))
      && (r != "" ==> r[0] != ' ' && r[|r| - 1] != ' ')
      && (forall i :: 0 < i < |r| ==> !(r[i - 1] == ' ' && r[i] == ' '))
  {
    SanitizedIsNormal(s);
  }

  // Ordinary text with single spaces between its words is left alone.
  lemma OrdinaryTextStays(s: string)
    requires forall i :: 0 <= i < |s| ==> s[i] == ' ' || Ordinary(s[i] as int)
    requires s != "" ==> s[0] != ' ' && s[|s| - 1] != ' '
    requires forall i :: 0 < i < |s| ==> !(s[i - 1] == ' ' && s[i] == ' ')
    ensures SanitizeText(s) == s
  {
    NormalUnchanged(s);
  }
}
