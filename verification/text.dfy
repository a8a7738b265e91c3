/** String helpers the handlers rely on: `toLowerCase` for the command word and
    `split(" ")` for the room name. */
module Text {
  import opened Values

  /** Lower case of one character. Only ASCII letters are folded; see README for
      why that is enough for comparing against the vocabulary. */
  function LowerChar(c: char): char
  {
    if 'A' <= c <= 'Z' then (c as int + 32) as char else c
  }

  function UpperChar(c: char): char
  {
    if 'a' <= c <= 'z' then (c as int - 32) as char else c
  }

  function Lower(s: string): (r: string)
    ensures |r| == |s|
  {
    if |s| == 0 then [] else [LowerChar(s[0])] + Lower(s[1..])
  }

  /** An independent statement of case-insensitive equality with a lower-case word:
      every character is either the word's character or its upper-case form. */
  predicate EqualsIgnoringCase(s: string, word: string)
  {
    |s| == |word| && forall i :: 0 <= i < |s| ==> s[i] == word[i] || s[i] == UpperChar(word[i])
  }

  predicate IsLowerWord(word: string)
  {
    forall i :: 0 <= i < |word| ==> 'a' <= word[i] <= 'z'
  }

  lemma {:induction false} LowerAt(s: string, i: int)
    requires 0 <= i < |s|
    ensures Lower(s)[i] == LowerChar(s[i])
    decreases |s|
  {
    if i > 0 {
      LowerAt(s[1..], i - 1);
    }
  }

  /** Lower-casing and comparing is the same as comparing case-insensitively. */
  lemma LowerEqualsIff(s: string, word: string)
    requires IsLowerWord(word)
    ensures Lower(s) == word <==> EqualsIgnoringCase(s, word)
  {
    if Lower(s) == word {
      forall i | 0 <= i < |s|
        ensures s[i] == word[i] || s[i] == UpperChar(word[i])
      {
        LowerAt(s, i);
      }
    }
    if EqualsIgnoringCase(s, word) {
      forall i | 0 <= i < |s|
        ensures Lower(s)[i] == word[i]
      {
        LowerAt(s, i);
      }
    }
  }

  /** Joins pieces with a separator; the inverse of `Split`. */
  function JoinWith(parts: seq<string>, sep: char): string
    requires |parts| >= 1
  {
    if |parts| == 1 then parts[0] else parts[0] + [sep] + JoinWith(parts[1..], sep)
  }

  /** `s.split(sep)` for a one-character string separator: the empty string gives
      one empty piece, and adjacent separators give empty pieces. */
  function Split(s: string, sep: char): (parts: seq<string>)
    ensures |parts| >= 1
    ensures forall i :: 0 <= i < |parts| ==> sep !in parts[i]
    ensures JoinWith(parts, sep) == s
    decreases |s|
  {
    if |s| == 0 then [""]
    else
      var rest := Split(s[1..], sep);
      if s[0] == sep then
        assert ([""] + rest)[1..] == rest;
        [""] + rest
      else
        var parts := [[s[0]] + rest[0]] + rest[1..];
        assert parts[1..] == rest[1..];
        parts
  }

  /** Splitting is the only way to cut `s` into separator-free pieces. */
  lemma {:induction false} SplitUnique(parts: seq<string>, sep: char)
    requires |parts| >= 1
    requires forall i :: 0 <= i < |parts| ==> sep !in parts[i]
    ensures Split(JoinWith(parts, sep), sep) == parts
    decreases |parts|, |parts[0]|
  {
    var s := JoinWith(parts, sep);
    if |parts| == 1 {
      SplitFree(parts[0], sep);
    } else if |parts[0]| == 0 {
      assert s == [sep] + JoinWith(parts[1..], sep);
      assert s[1..] == JoinWith(parts[1..], sep);
      SplitUnique(parts[1..], sep);
      assert parts == [""] + parts[1..];
    } else {
      var shorter := [parts[0][1..]] + parts[1..];
      assert shorter[1..] == parts[1..];
      assert JoinWith(shorter, sep) == s[1..];
      assert forall i :: 1 <= i < |shorter| ==> shorter[i] == parts[i];
      assert sep !in shorter[0] by {
        assert forall c :: c in shorter[0] ==> c in parts[0];
      }
      SplitUnique(shorter, sep);
      assert s[0] == parts[0][0];
      assert s[0] != sep by {
        assert parts[0][0] in parts[0];
      }
      assert [s[0]] + shorter[0] == parts[0];
      assert parts == [[s[0]] + shorter[0]] + shorter[1..];
    }
  }

  /** A separator-free string splits into itself. */
  lemma {:induction false} SplitFree(s: string, sep: char)
    requires sep !in s
    ensures Split(s, sep) == [s]
    decreases |s|
  {
    if |s| > 0 {
      assert sep !in s[1..] by {
        assert forall c :: c in s[1..] ==> c in s;
      }
      SplitFree(s[1..], sep);
    }
  }

  /** The room name of a command: `text.split(" ")[1]`, `undefined` when the text
      holds no space, possibly empty when two spaces are adjacent. */
  function SecondField(text: string): Option<string>
  {
    var parts := Split(text, ' ');
    if |parts| >= 2 then Some(parts[1]) else None
  }

  /** The second field is absent exactly when the text has no space, and otherwise
      it is the run of characters between the first space and the next one. */
  lemma SecondFieldAbsent(text: string)
    ensures SecondField(text) == None <==> ' ' !in text
  {
    var parts := Split(text, ' ');
    if |parts| == 1 {
      assert JoinWith(parts, ' ') == parts[0];
    } else {
      assert text == parts[0] + [' '] + JoinWith(parts[1..], ' ');
      assert text[|parts[0]|] == ' ';
    }
  }

  lemma SecondFieldOfParts(parts: seq<string>)
    requires |parts| >= 2
    requires forall i :: 0 <= i < |parts| ==> ' ' !in parts[i]
    ensures SecondField(JoinWith(parts, ' ')) == Some(parts[1])
  {
    SplitUnique(parts, ' ');
  }
}
