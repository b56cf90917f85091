/** Topic patterns as in section 3.1.3.3 of AMQP 0-9-1: dot-separated words, `*` for one word, `#` for any number. */
module Topics {

  function Split(k: string): (ws: seq<string>)
    ensures |ws| >= 1
  {
    if k == "" then [""]
    else
      var rest := Split(k[1..]);
      if k[0] == '.' then [""] + rest else [[k[0]] + rest[0]] + rest[1..]
  }

  /** The words of a routing key; the empty key has none. */
  function Words(k: string): seq<string> {
    if k == "" then [] else Split(k)
  }

  function Join(ws: seq<string>): string
    requires ws != []
  {
    if |ws| == 1 then ws[0] else ws[0] + "." + Join(ws[1..])
  }

  lemma {:induction false} JoinSplit(k: string)
    ensures Join(Split(k)) == k
  {
    if k != "" {
      var rest := Split(k[1..]);
      JoinSplit(k[1..]);
      if k[0] == '.' {
        assert ([""] + rest)[1..] == rest;
        assert "" + "." + Join(rest) == [k[0]] + k[1..];
      } else {
        var ws := [[k[0]] + rest[0]] + rest[1..];
        assert ws[1..] == rest[1..];
        assert Join(ws) == [k[0]] + Join(rest);
      }
    }
  }

  /** Two keys with the same words are the same key. */
  lemma WordsInjective(j: string, k: string)
    requires Words(j) == Words(k)
    ensures j == k
  {
    JoinSplit(j);
    JoinSplit(k);
  }

  predicate DotFree(w: string) { '.' !in w }

  /** `ws` are the words of key `k`: none for the empty key, otherwise what stands between its dots. */
  predicate AreWords(k: string, ws: seq<string>) {
    if k == "" then ws == []
    else ws != [] && (forall i :: 0 <= i < |ws| ==> DotFree(ws[i])) && Join(ws) == k
  }

  lemma {:induction false} SplitDotFree(k: string, i: nat)
    requires i < |Split(k)|
    ensures DotFree(Split(k)[i])
  {
    if k != "" {
      var rest := Split(k[1..]);
      if k[0] == '.' {
        if i > 0 {
          SplitDotFree(k[1..], i - 1);
        }
      } else {
        SplitDotFree(k[1..], i);
      }
    }
  }

  /** The first word of a key is what stands before its first dot. */
  lemma {:induction false} SplitDotFreeJoin(w: string, rest: seq<string>)
    requires DotFree(w)
    ensures Split(w) == [w]
    ensures rest != [] ==> Split(w + "." + Join(rest)) == [w] + Split(Join(rest))
  {
    if w == "" {
      assert rest != [] ==> (w + "." + Join(rest))[1..] == Join(rest);
    } else {
      SplitDotFreeJoin(w[1..], rest);
      assert DotFree(w[1..]) && w[0] in w;
      assert w == [w[0]] + w[1..];
      if rest != [] {
        var k := w + "." + Join(rest);
        assert k[0] == w[0] && k[1..] == w[1..] + "." + Join(rest);
      }
    }
  }

  lemma {:induction false} SplitJoin(ws: seq<string>)
    requires ws != [] && forall i :: 0 <= i < |ws| ==> DotFree(ws[i])
    ensures Split(Join(ws)) == ws
  {
    SplitDotFreeJoin(ws[0], ws[1..]);
    if |ws| > 1 {
      SplitJoin(ws[1..]);
      assert ws == [ws[0]] + ws[1..];
    }
  }

  /** A key has one list of words, and that is the one computed. */
  lemma WordsAreUnique(k: string, ws: seq<string>)
    ensures AreWords(k, ws) <==> ws == Words(k)
  {
    if k != "" {
      JoinSplit(k);
      forall i | 0 <= i < |Split(k)|
        ensures DotFree(Split(k)[i])
      {
        SplitDotFree(k, i);
      }
      if AreWords(k, ws) {
        SplitJoin(ws);
      }
    }
  }

  predicate Matches(p: seq<string>, w: seq<string>)
    decreases |p| + |w|
  {
    if p == [] then w == []
    else if p[0] == "#" then Matches(p[1..], w) || (w != [] && Matches(p, w[1..]))
    else w != [] && (p[0] == "*" || p[0] == w[0]) && Matches(p[1..], w[1..])
  }

  /** Every list of words matches itself as a pattern, wildcards included. */
  lemma {:induction false} MatchesSelf(p: seq<string>)
    ensures Matches(p, p)
  {
    if p != [] {
      MatchesSelf(p[1..]);
    }
  }

  /** A pattern without wildcards matches exactly itself. */
  lemma {:induction false} LiteralMatches(p: seq<string>, w: seq<string>)
    requires "*" !in p && "#" !in p
    ensures Matches(p, w) <==> p == w
  {
    if p != [] && w != [] {
      LiteralMatches(p[1..], w[1..]);
      assert p == [p[0]] + p[1..] && w == [w[0]] + w[1..];
    }
  }

  // The declarative reading of the standard: cut the key into one block per pattern word.

  predicate Fits(p: seq<string>, blocks: seq<seq<string>>) {
    && |blocks| == |p|
    && forall i :: 0 <= i < |p| ==> p[i] == "#" || (|blocks[i]| == 1 && p[i] in ["*", blocks[i][0]])
  }

  function Flatten(blocks: seq<seq<string>>): seq<string> {
    if blocks == [] then [] else blocks[0] + Flatten(blocks[1..])
  }

  lemma {:induction false} MatchesGivesBlocks(p: seq<string>, w: seq<string>) returns (blocks: seq<seq<string>>)
    requires Matches(p, w)
    ensures Fits(p, blocks) && Flatten(blocks) == w
    decreases |p| + |w|
  {
    if p == [] {
      blocks := [];
    } else if p[0] == "#" && Matches(p[1..], w) {
      var rest := MatchesGivesBlocks(p[1..], w);
      blocks := [[]] + rest;
      assert blocks[1..] == rest;
    } else if p[0] == "#" {
      var rest := MatchesGivesBlocks(p, w[1..]);
      blocks := [[w[0]] + rest[0]] + rest[1..];
      assert blocks[1..] == rest[1..];
      assert Flatten(blocks) == [w[0]] + Flatten(rest);
    } else {
      var rest := MatchesGivesBlocks(p[1..], w[1..]);
      blocks := [[w[0]]] + rest;
      assert blocks[1..] == rest;
    }
  }

  lemma {:induction false} BlocksGiveMatch(p: seq<string>, blocks: seq<seq<string>>)
    requires Fits(p, blocks)
    ensures Matches(p, Flatten(blocks))
    decreases |p|, |Flatten(blocks)|
  {
    if p != [] {
      var rest := blocks[1..];
      var w := Flatten(blocks);
      if p[0] != "#" {
        BlocksGiveMatch(p[1..], rest);
        assert w[1..] == Flatten(rest);
      } else if blocks[0] == [] {
        BlocksGiveMatch(p[1..], rest);
        assert w == Flatten(rest);
      } else {
        var shorter := [blocks[0][1..]] + rest;
        assert shorter[1..] == rest;
        assert w[1..] == Flatten(shorter);
        BlocksGiveMatch(p, shorter);
      }
    }
  }

  /** A topic key matches a routing key exactly when the words between the dots of the one can be laid over those
      between the dots of the other: `*` over one word, `#` over any number, any other word over itself. */
  lemma KeysMatchIffWordsFit(b: string, k: string)
    ensures Matches(Words(b), Words(k)) <==>
              exists p, blocks :: AreWords(b, p) && Fits(p, blocks) && AreWords(k, Flatten(blocks))
  {
    WordsAreUnique(b, Words(b));
    if Matches(Words(b), Words(k)) {
      var blocks := MatchesGivesBlocks(Words(b), Words(k));
      WordsAreUnique(k, Flatten(blocks));
    }
    forall p, blocks | AreWords(b, p) && Fits(p, blocks) && AreWords(k, Flatten(blocks))
      ensures Matches(Words(b), Words(k))
    {
      WordsAreUnique(b, p);
      WordsAreUnique(k, Flatten(blocks));
      BlocksGiveMatch(p, blocks);
    }
  }

  lemma WordsOfJoin(ws: seq<string>)
    requires ws != [] && ws[0] != "" && forall i :: 0 <= i < |ws| ==> DotFree(ws[i])
    ensures Words(Join(ws)) == ws
  {
    SplitJoin(ws);
    assert |Join(ws)| >= |ws[0]|;
  }

  predicate Plain(w: string) { DotFree(w) && w != "" && w != "*" && w != "#" }

  /** After a word of its own, `*` takes one word, no fewer and no more; `#` takes none, one or two. */
  lemma Wildcards(a: string, b: string, c: string)
    requires Plain(a) && Plain(b) && Plain(c)
    ensures var one, any := Words(Join([a, "*"])), Words(Join([a, "#"]));
            && Matches(one, Words(Join([a, b])))
            && !Matches(one, Words(Join([a]))) && !Matches(one, Words(Join([a, b, c])))
            && Matches(any, Words(Join([a]))) && Matches(any, Words(Join([a, b])))
            && Matches(any, Words(Join([a, b, c])))
    ensures Join([a, b]) == a + "." + b
  {
    WordsOfJoin([a, "*"]);
    WordsOfJoin([a, "#"]);
    WordsOfJoin([a]);
    WordsOfJoin([a, b]);
    WordsOfJoin([a, b, c]);
    assert [a, b, c][1..] == [b, c] && [b, c][1..] == [c];
    assert ["*"][1..] == [] && !Matches(["*"], [b, c]);
    assert Matches(["#"], []) && Matches(["#"], [c]);
    assert [a, "*"][1..] == ["*"] && [a, "#"][1..] == ["#"];
  }

  /** The matcher decides exactly the declarative reading. */
  lemma MatchesIffBlocks(p: seq<string>, w: seq<string>)
    ensures Matches(p, w) <==> exists blocks :: Fits(p, blocks) && Flatten(blocks) == w
  {
    if Matches(p, w) {
      var blocks := MatchesGivesBlocks(p, w);
    }
    forall blocks | Fits(p, blocks) && Flatten(blocks) == w
      ensures Matches(p, w)
    {
      BlocksGiveMatch(p, blocks);
    }
  }
}
