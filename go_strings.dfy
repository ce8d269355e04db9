/** Models of the Go standard-library string functions that the portfolio resource relies on:
    unicode.IsSpace, strings.Fields, strings.Join, strings.Trim, strings.TrimSuffix and
    fmt.Sprint applied to a []string.  A Go string is modelled as its sequence of code points. */
module GoStrings {

  /** unicode.IsSpace: exactly the code points with the Unicode White_Space property. */
  predicate IsSpace(c: char)
  {
    c == ' ' || ('\t' <= c <= '\r')   // U+0009 to U+000D: \t \n \v \f \r
    || c == '\U{0085}' || c == '\U{00A0}' || c == '\U{1680}'
    || ('\U{2000}' <= c <= '\U{200A}')
    || c == '\U{2028}' || c == '\U{2029}' || c == '\U{202F}' || c == '\U{205F}' || c == '\U{3000}'
  }

  predicate NoSpace(s: string)
  {
    forall i :: 0 <= i < |s| ==> !IsSpace(s[i])
  }

  /** No character of `s` occurs in `cutset`. */
  predicate Avoids(s: string, cutset: string)
  {
    forall i :: 0 <= i < |s| ==> s[i] !in cutset
  }

  predicate AllAvoid(words: seq<string>, cutset: string)
  {
    forall i :: 0 <= i < |words| ==> Avoids(words[i], cutset)
  }

  /** strings.Join */
  function Join(elems: seq<string>, sep: string): string
  {
    if elems == [] then []
    else if |elems| == 1 then elems[0]
    else elems[0] + sep + Join(elems[1..], sep)
  }

  /** fmt.Sprint of a []string: the elements separated by single spaces, in brackets. */
  function Sprint(elems: seq<string>): string
  {
    "[" + Join(elems, " ") + "]"
  }

  /** strings.Fields: the maximal runs of non-space characters of `s`, in order. */
  function Fields(s: string): seq<string>
  {
    FieldsFrom(s, [])
  }

  /** The scan behind Fields: `word` holds the non-space characters read since the last space. */
  function FieldsFrom(s: string, word: string): seq<string>
    decreases |s|
  {
    if s == [] then Flush(word)
    else if IsSpace(s[0]) then Flush(word) + FieldsFrom(s[1..], [])
    else FieldsFrom(s[1..], word + [s[0]])
  }

  function Flush(word: string): seq<string>
  {
    if word == [] then [] else [word]
  }

  function TrimLeft(s: string, cutset: string): string
    decreases |s|
  {
    if s != [] && s[0] in cutset then TrimLeft(s[1..], cutset) else s
  }

  function TrimRight(s: string, cutset: string): string
    decreases |s|
  {
    if s != [] && s[|s| - 1] in cutset then TrimRight(s[..|s| - 1], cutset) else s
  }

  /** strings.Trim: every leading and every trailing character that occurs in `cutset` removed. */
  function Trim(s: string, cutset: string): string
  {
    TrimRight(TrimLeft(s, cutset), cutset)
  }

  predicate HasSuffix(s: string, suffix: string)
  {
    |suffix| <= |s| && s[|s| - |suffix|..] == suffix
  }

  /** strings.TrimSuffix: removes `suffix` once, if `s` ends with it. */
  function TrimSuffix(s: string, suffix: string): (r: string)
    ensures HasSuffix(s, suffix) ==> r + suffix == s
    ensures !HasSuffix(s, suffix) ==> r == s
  {
    if HasSuffix(s, suffix) then s[..|s| - |suffix|] else s
  }

  /** The first word with `p` glued to its front. */
  function PrependFirst(p: string, words: seq<string>): seq<string>
    requires words != []
  {
    [p + words[0]] + words[1..]
  }

  /** The last word with `q` glued to its end. */
  function AppendLast(words: seq<string>, q: string): seq<string>
    requires words != []
  {
    words[..|words| - 1] + [words[|words| - 1] + q]
  }

  lemma AvoidsConcat(a: string, b: string, cutset: string)
    requires Avoids(a, cutset) && Avoids(b, cutset)
    ensures Avoids(a + b, cutset)
  {
    forall i | 0 <= i < |a + b|
      ensures (a + b)[i] !in cutset
    {
      if i < |a| {
        assert (a + b)[i] == a[i];
      } else {
        assert (a + b)[i] == b[i - |a|];
      }
    }
  }

  /** A run of non-space characters is absorbed into the word being scanned. */
  lemma {:induction false} FieldsSkipWord(w: string, s: string, word: string)
    requires NoSpace(w)
    ensures FieldsFrom(w + s, word) == FieldsFrom(s, word + w)
    decreases |w|
  {
    if w == [] {
      assert w + s == s;
      assert word + w == word;
    } else {
      assert (w + s)[0] == w[0];
      assert (w + s)[1..] == w[1..] + s;
      assert NoSpace(w[1..]) by {
        forall i | 0 <= i < |w[1..]|
          ensures !IsSpace(w[1..][i])
        {
          assert w[1..][i] == w[i + 1];
        }
      }
      FieldsSkipWord(w[1..], s, word + [w[0]]);
      assert word + [w[0]] + w[1..] == word + w;
    }
  }

  /** Text glued in front of a scan that starts inside a word ends up in the first field. */
  lemma {:induction false} FieldsGlueFront(x: string, word: string, c: string)
    requires word != [] || (x != [] && !IsSpace(x[0]))
    ensures FieldsFrom(x, word) != []
    ensures FieldsFrom(x, c + word) == PrependFirst(c, FieldsFrom(x, word))
    decreases |x|
  {
    if x == [] {
    } else if IsSpace(x[0]) {
      assert FieldsFrom(x, word) == [word] + FieldsFrom(x[1..], []);
      assert FieldsFrom(x, c + word) == [c + word] + FieldsFrom(x[1..], []);
    } else {
      FieldsGlueFront(x[1..], word + [x[0]], c);
      assert c + word + [x[0]] == c + (word + [x[0]]);
    }
  }

  /** Non-space text glued after a string that ends inside a word ends up in the last field. */
  lemma {:induction false} FieldsGlueBack(x: string, word: string, q: string)
    requires NoSpace(q)
    requires (x != [] && !IsSpace(x[|x| - 1])) || (x == [] && word != [])
    ensures FieldsFrom(x, word) != []
    ensures FieldsFrom(x + q, word) == AppendLast(FieldsFrom(x, word), q)
    decreases |x|
  {
    if x == [] {
      assert x + q == q + [];
      FieldsSkipWord(q, [], word);
    } else {
      assert (x + q)[0] == x[0];
      assert (x + q)[1..] == x[1..] + q;
      if IsSpace(x[0]) {
        assert |x| >= 2;
        assert x[1..][|x[1..]| - 1] == x[|x| - 1];
        FieldsGlueBack(x[1..], [], q);
        var head, rest := Flush(word), FieldsFrom(x[1..], []);
        assert FieldsFrom(x, word) == head + rest;
        assert FieldsFrom(x + q, word) == head + AppendLast(rest, q);
        assert (head + rest)[..|head + rest| - 1] == head + rest[..|rest| - 1];
      } else {
        assert x[1..] != [] ==> x[1..][|x[1..]| - 1] == x[|x| - 1];
        FieldsGlueBack(x[1..], word + [x[0]], q);
      }
    }
  }

  /** Fields invents no characters: words of a string free of `cutset` are free of it too. */
  lemma {:induction false} FieldsAvoid(x: string, word: string, cutset: string)
    requires Avoids(x, cutset) && Avoids(word, cutset)
    ensures AllAvoid(FieldsFrom(x, word), cutset)
    decreases |x|
  {
    if x != [] {
      assert Avoids(x[1..], cutset) by {
        forall i | 0 <= i < |x[1..]|
          ensures x[1..][i] !in cutset
        {
          assert x[1..][i] == x[i + 1];
        }
      }
      if IsSpace(x[0]) {
        FieldsAvoid(x[1..], [], cutset);
        var head, rest := Flush(word), FieldsFrom(x[1..], []);
        forall i | 0 <= i < |head + rest|
          ensures Avoids((head + rest)[i], cutset)
        {
          if i >= |head| {
            assert (head + rest)[i] == rest[i - |head|];
          }
        }
      } else {
        AvoidsConcat(word, [x[0]], cutset);
        FieldsAvoid(x[1..], word + [x[0]], cutset);
      }
    }
  }

  lemma {:induction false} JoinAvoids(words: seq<string>, sep: string, cutset: string)
    requires AllAvoid(words, cutset) && Avoids(sep, cutset)
    ensures Avoids(Join(words, sep), cutset)
    decreases |words|
  {
    if |words| > 1 {
      JoinAvoids(words[1..], sep, cutset);
      AvoidsConcat(words[0], sep, cutset);
      AvoidsConcat(words[0] + sep, Join(words[1..], sep), cutset);
    }
  }

  lemma JoinPrependFirst(p: string, words: seq<string>, sep: string)
    requires words != []
    ensures Join(PrependFirst(p, words), sep) == p + Join(words, sep)
  {
    var glued := PrependFirst(p, words);
    assert glued[0] == p + words[0];
    assert glued[1..] == words[1..];
  }

  lemma {:induction false} JoinAppendLast(words: seq<string>, q: string, sep: string)
    requires words != []
    ensures Join(AppendLast(words, q), sep) == Join(words, sep) + q
    decreases |words|
  {
    if |words| > 1 {
      var glued := AppendLast(words, q);
      assert glued[0] == words[0];
      assert glued[1..] == AppendLast(words[1..], q);
      JoinAppendLast(words[1..], q, sep);
    }
  }

  /** The last character of a join is the last character of the last element. */
  lemma {:induction false} JoinLastChar(words: seq<string>, sep: string)
    requires words != [] && words[|words| - 1] != []
    ensures Join(words, sep) != []
    ensures Join(words, sep)[|Join(words, sep)| - 1] == words[|words| - 1][|words[|words| - 1]| - 1]
    decreases |words|
  {
    if |words| > 1 {
      JoinLastChar(words[1..], sep);
      var tail := Join(words[1..], sep);
      assert Join(words, sep) == (words[0] + sep) + tail;
    }
  }

  /** Splitting the space-joined words gives the words back. */
  lemma {:induction false} FieldsOfJoinedWords(words: seq<string>)
    requires forall i :: 0 <= i < |words| ==> words[i] != [] && NoSpace(words[i])
    ensures Fields(Join(words, " ")) == words
    decreases |words|
  {
    if |words| == 1 {
      FieldsSkipWord(words[0], [], []);
      assert words[0] + [] == words[0];
      assert [] + words[0] == words[0];
    } else if |words| > 1 {
      var rest := Join(words[1..], " ");
      assert Join(words, " ") == words[0] + (" " + rest);
      FieldsSkipWord(words[0], " " + rest, []);
      assert [] + words[0] == words[0];
      assert (" " + rest)[1..] == rest;
      FieldsOfJoinedWords(words[1..]);
    }
  }

  /** Trim strips one enclosing pair of cutset characters from a string that avoids the cutset. */
  lemma TrimEnclosed(y: string, open: char, close: char, cutset: string)
    requires open in cutset && close in cutset && Avoids(y, cutset)
    ensures Trim([open] + y + [close], cutset) == y
  {
    var s := [open] + y + [close];
    assert s[1..] == y + [close];
    if y == [] {
      assert TrimLeft([close], cutset) == TrimLeft([], cutset);
    } else {
      assert (y + [close])[0] == y[0];
      assert TrimLeft(y + [close], cutset) == y + [close];
      assert (y + [close])[..|y|] == y;
      assert TrimRight(y, cutset) == y;
    }
  }

  /** Removing a trailing "/" does nothing to a path whose last character is not "/". */
  lemma TrimSlashNoop(p: string, e: string)
    requires e != [] && e[|e| - 1] != '/'
    ensures TrimSuffix(p + e, "/") == p + e
  {
    assert (p + e)[|p + e| - 1] == e[|e| - 1];
    assert (p + e)[|p + e| - 1..] == [e[|e| - 1]];
  }
}
