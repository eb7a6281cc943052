/** Splitting: text longer than the hard maximum is broken at word
    boundaries, words being accumulated greedily into pieces of at most the
    hard maximum; a word longer than that is cut at the maximum. */
module Splitting {

  /** The words of `s`, split at every space (consecutive spaces give empty words). */
  function Words(s: string): (ws: seq<string>)
    ensures |ws| >= 1
    decreases |s|
  {
    if s == [] then [""]
    else
      var rest := Words(s[1..]);
      if s[0] == ' ' then [""] + rest else [[s[0]] + rest[0]] + rest[1..]
  }

  /** The words joined by single spaces. */
  function JoinWords(ws: seq<string>): string
    decreases |ws|
  {
    if ws == [] then ""
    else if |ws| == 1 then ws[0]
    else ws[0] + " " + JoinWords(ws[1..])
  }

  lemma JoinCons(w: string, ws: seq<string>)
    requires ws != []
    ensures JoinWords([w] + ws) == w + " " + JoinWords(ws)
  {
    assert ([w] + ws)[1..] == ws;
  }

  /** Joining two non-empty word lists puts one space between their joins. */
  lemma {:induction false} JoinAppend(a: seq<string>, b: seq<string>)
    requires a != [] && b != []
    ensures JoinWords(a + b) == JoinWords(a) + " " + JoinWords(b)
    decreases |a|
  {
    assert a + b == [a[0]] + (a[1..] + b);
    JoinCons(a[0], a[1..] + b);
    if |a| == 1 {
      assert a[1..] + b == b;
    } else {
      JoinAppend(a[1..], b);
      JoinCons(a[0], a[1..]);
      assert [a[0]] + a[1..] == a;
    }
  }

  /** Splitting at spaces and joining with spaces gives the text back. */
  lemma {:induction false} WordsRoundTrip(s: string)
    ensures JoinWords(Words(s)) == s
    decreases |s|
  {
    if s != [] {
      var rest := Words(s[1..]);
      WordsRoundTrip(s[1..]);
      if s[0] == ' ' {
        JoinCons("", rest);
      } else if |rest| > 1 {
        JoinCons([s[0]] + rest[0], rest[1..]);
        JoinCons(rest[0], rest[1..]);
        assert rest == [rest[0]] + rest[1..];
      }
      assert s == [s[0]] + s[1..];
    }
  }

  /** No word contains a space, so no piece boundary falls inside a word
      unless that word is cut for being too long. */
  lemma {:induction false} WordsHaveNoSpaces(s: string)
    ensures forall w | w in Words(s) :: ' ' !in w
    decreases |s|
  {
    if s != [] {
      WordsHaveNoSpaces(s[1..]);
      var rest := Words(s[1..]);
      assert rest[0] in rest;
      forall w | w in rest[1..] ensures w in rest { }
    }
  }

  /** A word without spaces stays glued to whatever word starts the text after it. */
  lemma {:induction false} WordsAfterPlainWord(w: string, t: string)
    requires ' ' !in w
    ensures Words(w + t) == [w + Words(t)[0]] + Words(t)[1..]
    decreases |w|
  {
    if w == [] {
      assert w + t == t;
      assert w + Words(t)[0] == Words(t)[0];
      assert Words(t) == [Words(t)[0]] + Words(t)[1..];
    } else {
      assert w[0] in w;
      assert (w + t)[0] == w[0] != ' ';
      assert (w + t)[1..] == w[1..] + t;
      forall c | c in w[1..] ensures c != ' ' { assert c in w; }
      WordsAfterPlainWord(w[1..], t);
      var rest := Words(w[1..] + t);
      assert Words(w + t) == [[w[0]] + rest[0]] + rest[1..];
      assert [w[0]] + (w[1..] + Words(t)[0]) == w + Words(t)[0];
    }
  }

  /** Joining space-free words and splitting again gives the words back. */
  lemma {:induction false} WordsOfJoin(ws: seq<string>)
    requires ws != []
    requires forall w | w in ws :: ' ' !in w
    ensures Words(JoinWords(ws)) == ws
    decreases |ws|
  {
    assert ws[0] in ws;
    if |ws| == 1 {
      WordsAfterPlainWord(ws[0], "");
      assert ws[0] + "" == ws[0];
    } else {
      forall v | v in ws[1..] ensures ' ' !in v { assert v in ws; }
      WordsOfJoin(ws[1..]);
      var t := " " + JoinWords(ws[1..]);
      assert ws[0] + " " + JoinWords(ws[1..]) == ws[0] + t;
      assert t[1..] == JoinWords(ws[1..]);
      WordsAfterPlainWord(ws[0], t);
      assert Words(t) == [""] + ws[1..];
      assert ws[0] + "" == ws[0];
      assert ws == [ws[0]] + ws[1..];
    }
  }

  /** Greedy packing: `cur` is the open piece. An open piece longer than
      `maxLen` is cut at `maxLen`; the next word joins it when the piece, a
      space and the word fit, otherwise the piece is flushed and the word opens
      the next one. */
  function Pack(words: seq<string>, cur: string, maxLen: nat): seq<string>
    requires maxLen > 0
    decreases |words|, |cur|
  {
    if |cur| > maxLen then [cur[..maxLen]] + Pack(words, cur[maxLen..], maxLen)
    else if words == [] then [cur]
    else if |cur| + 1 + |words[0]| <= maxLen then Pack(words[1..], cur + " " + words[0], maxLen)
    else [cur] + Pack(words[1..], words[0], maxLen)
  }

  /** The words that hold at least one character, in order: a run of spaces
      separates two words and contributes none of its own. */
  function DropEmpty(ws: seq<string>): (r: seq<string>)
    ensures forall w | w in r :: w != "" && w in ws
    decreases |ws|
  {
    if ws == [] then []
    else (if ws[0] == "" then [] else [ws[0]]) + DropEmpty(ws[1..])
  }

  /** Words that are all non-empty are kept as they are. */
  lemma {:induction false} DropEmptyKeeps(ws: seq<string>)
    requires forall w | w in ws :: w != ""
    ensures DropEmpty(ws) == ws
    decreases |ws|
  {
    if ws != [] {
      assert ws[0] in ws;
      forall w | w in ws[1..] ensures w != "" { assert w in ws; }
      DropEmptyKeeps(ws[1..]);
      assert ws == [ws[0]] + ws[1..];
    }
  }

  /** The pieces of `s`: none for empty text, the text itself when it fits,
      and otherwise its non-empty words packed greedily. */
  function Split(s: string, maxLen: nat): seq<string>
    requires maxLen > 0
  {
    if s == "" then []
    else if |s| <= maxLen then [s]
    else
      var ws := DropEmpty(Words(s));
      if ws == [] then [] else Pack(ws[1..], ws[0], maxLen)
  }

  /** Every piece is at most `maxLen` long. */
  lemma {:induction false} PackBounded(words: seq<string>, cur: string, maxLen: nat)
    requires maxLen > 0
    ensures forall p | p in Pack(words, cur, maxLen) :: |p| <= maxLen
    decreases |words|, |cur|
  {
    if |cur| > maxLen {
      PackBounded(words, cur[maxLen..], maxLen);
    } else if words == [] {
    } else if |cur| + 1 + |words[0]| <= maxLen {
      PackBounded(words[1..], cur + " " + words[0], maxLen);
    } else {
      PackBounded(words[1..], words[0], maxLen);
    }
  }

  lemma PackNonEmpty(words: seq<string>, cur: string, maxLen: nat)
    requires maxLen > 0
    ensures Pack(words, cur, maxLen) != []
  {
  }

  /** From a non-empty open piece and non-empty words, no piece is empty. */
  lemma {:induction false} PackNoEmptyPieces(words: seq<string>, cur: string, maxLen: nat)
    requires maxLen > 0 && cur != ""
    requires forall w | w in words :: w != ""
    ensures forall p | p in Pack(words, cur, maxLen) :: p != ""
    decreases |words|, |cur|
  {
    if |cur| > maxLen {
      PackNoEmptyPieces(words, cur[maxLen..], maxLen);
    } else if words != [] {
      assert words[0] in words;
      forall w | w in words[1..] ensures w != "" { assert w in words; }
      if |cur| + 1 + |words[0]| <= maxLen {
        PackNoEmptyPieces(words[1..], cur + " " + words[0], maxLen);
      } else {
        PackNoEmptyPieces(words[1..], words[0], maxLen);
      }
    }
  }

  /** Gluing the first two words with a space does not change the join. */
  lemma JoinFirstTwo(cur: string, w: string, tail: seq<string>)
    ensures JoinWords([cur + " " + w] + tail) == JoinWords([cur, w] + tail)
  {
    assert ([cur, w] + tail)[1..] == [w] + tail;
    if tail != [] {
      JoinCons(cur + " " + w, tail);
      JoinCons(w, tail);
    } else {
      assert [cur + " " + w] + tail == [cur + " " + w];
      assert [cur, w] + tail == [cur, w];
    }
  }

  /** When no word is longer than `maxLen`, joining the pieces with single
      spaces restores the packed words. */
  lemma {:induction false} PackRoundTrip(words: seq<string>, cur: string, maxLen: nat)
    requires maxLen > 0 && |cur| <= maxLen
    requires forall w | w in words :: |w| <= maxLen
    ensures JoinWords(Pack(words, cur, maxLen)) == JoinWords([cur] + words)
    decreases |words|
  {
    if words != [] {
      var w := words[0];
      var tail := words[1..];
      assert w in words;
      assert [cur] + words == [cur, w] + tail;
      forall v | v in tail ensures |v| <= maxLen { assert v in words; }
      if |cur| + 1 + |w| <= maxLen {
        assert Pack(words, cur, maxLen) == Pack(tail, cur + " " + w, maxLen);
        PackRoundTrip(tail, cur + " " + w, maxLen);
        JoinFirstTwo(cur, w, tail);
      } else {
        var rest := Pack(tail, w, maxLen);
        assert Pack(words, cur, maxLen) == [cur] + rest;
        PackRoundTrip(tail, w, maxLen);
        PackNonEmpty(tail, w, maxLen);
        JoinCons(cur, rest);
        JoinCons(cur, [w] + tail);
      }
    }
  }

  /** The joined text starts with its first word, so it is at least as long. */
  lemma JoinHeadLength(x: string, tail: seq<string>)
    ensures |JoinWords([x] + tail)| >= |x|
  {
    if tail != [] {
      JoinCons(x, tail);
    } else {
      assert [x] + tail == [x];
    }
  }

  /** Text that already fits is one piece: it is never split. */
  lemma {:induction false} PackFits(words: seq<string>, cur: string, maxLen: nat)
    requires maxLen > 0
    requires |JoinWords([cur] + words)| <= maxLen
    ensures Pack(words, cur, maxLen) == [JoinWords([cur] + words)]
    decreases |words|
  {
    JoinHeadLength(cur, words);
    if words == [] {
      assert [cur] + words == [cur];
    } else {
      var w := words[0];
      var tail := words[1..];
      assert [cur] + words == [cur, w] + tail;
      JoinFirstTwo(cur, w, tail);
      JoinHeadLength(cur + " " + w, tail);
      assert Pack(words, cur, maxLen) == Pack(tail, cur + " " + w, maxLen);
      PackFits(tail, cur + " " + w, maxLen);
    }
  }

  /** Greedy choice: the open piece takes exactly the longest run of next
      words that fits, and the first word that does not fit opens the next piece. */
  lemma {:induction false} PackTakesLongestRun(words: seq<string>, cur: string, k: nat, maxLen: nat)
    requires maxLen > 0 && k < |words|
    requires |JoinWords([cur] + words[..k])| <= maxLen
    requires |JoinWords([cur] + words[..k])| + 1 + |words[k]| > maxLen
    ensures Pack(words, cur, maxLen) == [JoinWords([cur] + words[..k])] + Pack(words[k + 1..], words[k], maxLen)
    decreases k
  {
    var w := words[0];
    if k == 0 {
      assert [cur] + words[..0] == [cur];
    } else {
      var cur' := cur + " " + w;
      assert words[..k] == [w] + words[1..][..k - 1];
      JoinCons(cur, words[..k]);
      if k == 1 {
        assert [cur'] + words[1..][..0] == [cur'];
      } else {
        JoinCons(w, words[1..][..k - 1]);
        JoinCons(cur', words[1..][..k - 1]);
      }
      assert JoinWords([cur'] + words[1..][..k - 1]) == JoinWords([cur] + words[..k]);
      assert words[1..][k - 1] == words[k] && words[1..][k..] == words[k + 1..];
      PackTakesLongestRun(words[1..], cur', k - 1, maxLen);
    }
  }

  /** A non-empty word list is its first word followed by the others. */
  lemma JoinHeadTail(ws: seq<string>)
    requires ws != []
    ensures JoinWords([ws[0]] + ws[1..]) == JoinWords(ws)
  {
    assert [ws[0]] + ws[1..] == ws;
  }

  /** The splitter's promises: no piece is empty and every piece fits
      `maxLen`; text that fits is one piece; longer text whose words all fit
      comes back, runs of spaces aside, by joining the pieces with single
      spaces, and exactly when it has no empty word. */
  lemma SplitProperties(s: string, maxLen: nat)
    requires maxLen > 0
    ensures forall p | p in Split(s, maxLen) :: p != "" && |p| <= maxLen
    ensures s != "" && |s| <= maxLen ==> Split(s, maxLen) == [s]
    ensures |s| > maxLen && (forall w | w in Words(s) :: |w| <= maxLen) ==>
      JoinWords(Split(s, maxLen)) == JoinWords(DropEmpty(Words(s)))
    ensures (forall w | w in Words(s) :: w != "" && |w| <= maxLen) ==> JoinWords(Split(s, maxLen)) == s
  {
    if |s| > maxLen {
      var ws := DropEmpty(Words(s));
      if ws != [] {
        assert ws[0] in ws;
        forall v | v in ws[1..] ensures v != "" { assert v in ws; }
        PackBounded(ws[1..], ws[0], maxLen);
        PackNoEmptyPieces(ws[1..], ws[0], maxLen);
        if forall w | w in Words(s) :: |w| <= maxLen {
          forall v | v in ws[1..] ensures |v| <= maxLen { assert v in ws; }
          PackRoundTrip(ws[1..], ws[0], maxLen);
          JoinHeadTail(ws);
        }
      }
      if forall w | w in Words(s) :: w != "" && |w| <= maxLen {
        DropEmptyKeeps(Words(s));
        WordsRoundTrip(s);
      }
    }
  }

  /** One step of the splitting loop: cut, grow or flush. */
  lemma PackStep(rest: seq<string>, cur: string, maxLen: nat)
    requires maxLen > 0
    ensures |cur| > maxLen ==>
      Pack(rest, cur, maxLen) == [cur[..maxLen]] + Pack(rest, cur[maxLen..], maxLen)
    ensures |cur| <= maxLen && rest != [] && |cur| + 1 + |rest[0]| <= maxLen ==>
      Pack(rest, cur, maxLen) == Pack(rest[1..], cur + " " + rest[0], maxLen)
    ensures |cur| <= maxLen && rest != [] && |cur| + 1 + |rest[0]| > maxLen ==>
      Pack(rest, cur, maxLen) == [cur] + Pack(rest[1..], rest[0], maxLen)
  {
  }

  /** The splitter's greedy loop over the words: the open piece is
      cut when too long, grown by the next word when it fits, and flushed
      otherwise. */
  method PackWords(words: seq<string>, maxLen: nat) returns (pieces: seq<string>)
    requires maxLen > 0 && words != []
    ensures pieces == Pack(words[1..], words[0], maxLen)
  {
    var cur := words[0];
    var i := 1;
    pieces := [];
    while i < |words| || |cur| > maxLen
      invariant 1 <= i <= |words|
      invariant pieces + Pack(words[i..], cur, maxLen) == Pack(words[1..], words[0], maxLen)
      decreases |words| - i, |cur|
    {
      ghost var rest := words[i..];
      PackStep(rest, cur, maxLen);
      if |cur| > maxLen {
        assert pieces + [cur[..maxLen]] + Pack(rest, cur[maxLen..], maxLen) == pieces + Pack(rest, cur, maxLen);
        pieces := pieces + [cur[..maxLen]];
        cur := cur[maxLen..];
      } else if |cur| + 1 + |words[i]| <= maxLen {
        assert rest[0] == words[i] && rest[1..] == words[i + 1..];
        cur := cur + " " + words[i];
        i := i + 1;
      } else {
        assert rest[0] == words[i] && rest[1..] == words[i + 1..];
        assert pieces + [cur] + Pack(rest[1..], rest[0], maxLen) == pieces + Pack(rest, cur, maxLen);
        pieces := pieces + [cur];
        cur := words[i];
        i := i + 1;
      }
    }
    assert words[i..] == [];
    pieces := pieces + [cur];
  }

  /** Splitting a text: no pieces for empty text, the text itself when it
      fits, otherwise its non-empty words packed greedily. */
  method SplitText(s: string, maxLen: nat) returns (pieces: seq<string>)
    requires maxLen > 0
    ensures pieces == Split(s, maxLen)
    ensures forall p | p in pieces :: p != "" && |p| <= maxLen
    ensures s != "" && |s| <= maxLen ==> pieces == [s]
    ensures (forall w | w in Words(s) :: w != "" && |w| <= maxLen) ==> JoinWords(pieces) == s
  {
    SplitProperties(s, maxLen);
    if s == "" {
      return [];
    }
    if |s| <= maxLen {
      return [s];
    }
    var words := DropEmpty(Words(s));
    if words == [] {
      return [];
    }
    pieces := PackWords(words, maxLen);
  }
}
