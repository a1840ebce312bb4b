/**
 * The six-message example of bot/src/services/__tests__/wordcloud.service.test.ts
 * worked through the model: its tokens, the tokens kept, their tally, and
 * the ranking cut to five entries.
 */
module WordCloudFixture {
  import opened Seqs
  import opened Ranking
  import opened Records
  import opened WordCloudService

  const Sample: seq<string> := [
    "hello world this is a test",
    "hello again world this is fun",
    "test test test",
    "and another one",
    "http://example.com link",
    "@mention someone"
  ]

  /** The counting map of the example, in key order. */
  const SampleTally: seq<WordCount> := [WordCount("hello", 2), WordCount("world", 2), WordCount("test", 4), WordCount("again", 1), WordCount("fun", 1), WordCount("another", 1), WordCount("one", 1), WordCount("//example", 1), WordCount("com", 1), WordCount("link", 1), WordCount("someone", 1)]

  /** The example's ranking: `test` first, the tie of `hello` and `world` in key order, then the rest. */
  const SampleRanking: seq<WordCount> := [WordCount("test", 4), WordCount("hello", 2), WordCount("world", 2), WordCount("again", 1), WordCount("fun", 1), WordCount("another", 1), WordCount("one", 1), WordCount("//example", 1), WordCount("com", 1), WordCount("link", 1), WordCount("someone", 1)]

  /** The five entries the example expects. */
  const SampleTop: seq<WordCount> := [WordCount("test", 4), WordCount("hello", 2), WordCount("world", 2), WordCount("again", 1), WordCount("fun", 1)]

  /** `LowerStr` leaves a text without capitals as it is. */
  lemma LowerFixed(s: string)
    requires forall i :: 0 <= i < |s| ==> Lower(s[i]) == s[i]
    ensures LowerStr(s) == s
  {
  }

  /** Words of lower-case ASCII letters hold no separator. */
  lemma LetterWords(ws: seq<string>)
    requires forall i :: 0 <= i < |ws| ==> |ws[i]| > 0 && forall j :: 0 <= j < |ws[i]| ==> 'a' <= ws[i][j] <= 'z'
    ensures forall i :: 0 <= i < |ws| ==> |ws[i]| > 0 && NoSeparator(ws[i])
  {
  }

  /** The words of text 0 joined, spelled out. */
  lemma Spelled0()
    ensures Joined(["hello", "world", "this", "is", "a", "test"], "     ")
            == "hello" + ([' '] + ("world" + ([' '] + ("this" + ([' '] + ("is" + ([' '] + ("a" + ([' '] + "test")))))))))
  {
  }

  lemma Literal0()
    ensures Sample[0] == "hello" + ([' '] + ("world" + ([' '] + ("this" + ([' '] + ("is" + ([' '] + ("a" + ([' '] + "test")))))))))
  {
  }

  lemma Lower0()
    ensures LowerStr(Sample[0]) == Sample[0]
  {
    LowerFixed(Sample[0]);
  }

  lemma Tokens0()
    ensures TextTokens(Sample[0]) == ["hello", "world", "this", "is", "a", "test"]
  {
    Lower0();
    Spelled0();
    Literal0();
    LetterWords(["hello", "world", "this", "is", "a", "test"]);
    TokensOfJoined(["hello", "world", "this", "is", "a", "test"], "     ");
  }

  /** The words of text 1 joined, spelled out. */
  lemma Spelled1()
    ensures Joined(["hello", "again", "world", "this", "is", "fun"], "     ")
            == "hello" + ([' '] + ("again" + ([' '] + ("world" + ([' '] + ("this" + ([' '] + ("is" + ([' '] + "fun")))))))))
  {
  }

  lemma Literal1()
    ensures Sample[1] == "hello" + ([' '] + ("again" + ([' '] + ("world" + ([' '] + ("this" + ([' '] + ("is" + ([' '] + "fun")))))))))
  {
  }

  lemma Lower1()
    ensures LowerStr(Sample[1]) == Sample[1]
  {
    LowerFixed(Sample[1]);
  }

  lemma Tokens1()
    ensures TextTokens(Sample[1]) == ["hello", "again", "world", "this", "is", "fun"]
  {
    Lower1();
    Spelled1();
    Literal1();
    LetterWords(["hello", "again", "world", "this", "is", "fun"]);
    TokensOfJoined(["hello", "again", "world", "this", "is", "fun"], "     ");
  }

  /** The words of text 2 joined, spelled out. */
  lemma Spelled2()
    ensures Joined(["test", "test", "test"], "  ")
            == "test" + ([' '] + ("test" + ([' '] + "test")))
  {
  }

  lemma Literal2()
    ensures Sample[2] == "test" + ([' '] + ("test" + ([' '] + "test")))
  {
  }

  lemma Lower2()
    ensures LowerStr(Sample[2]) == Sample[2]
  {
    LowerFixed(Sample[2]);
  }

  lemma Tokens2()
    ensures TextTokens(Sample[2]) == ["test", "test", "test"]
  {
    Lower2();
    Spelled2();
    Literal2();
    TokensOfJoined(["test", "test", "test"], "  ");
  }

  /** The words of text 3 joined, spelled out. */
  lemma Spelled3()
    ensures Joined(["and", "another", "one"], "  ")
            == "and" + ([' '] + ("another" + ([' '] + "one")))
  {
  }

  lemma Literal3()
    ensures Sample[3] == "and" + ([' '] + ("another" + ([' '] + "one")))
  {
  }

  lemma Lower3()
    ensures LowerStr(Sample[3]) == Sample[3]
  {
    LowerFixed(Sample[3]);
  }

  lemma Tokens3()
    ensures TextTokens(Sample[3]) == ["and", "another", "one"]
  {
    Lower3();
    Spelled3();
    Literal3();
    TokensOfJoined(["and", "another", "one"], "  ");
  }

  /** The words of text 4 joined, spelled out. */
  lemma Spelled4()
    ensures Joined(["http", "//example", "com", "link"], ":. ")
            == "http" + ([':'] + ("//example" + (['.'] + ("com" + ([' '] + "link")))))
  {
  }

  lemma Literal4()
    ensures Sample[4] == "http" + ([':'] + ("//example" + (['.'] + ("com" + ([' '] + "link")))))
  {
  }

  lemma Lower4()
    ensures LowerStr(Sample[4]) == Sample[4]
  {
    LowerFixed(Sample[4]);
  }

  /** The colon and the dot are separators; the slashes are not. */
  lemma Tokens4()
    ensures TextTokens(Sample[4]) == ["http", "//example", "com", "link"]
  {
    Lower4();
    Spelled4();
    Literal4();
    TokensOfJoined(["http", "//example", "com", "link"], ":. ");
  }

  /** The words of text 5 joined, spelled out. */
  lemma Spelled5()
    ensures Joined(["@mention", "someone"], " ")
            == "@mention" + ([' '] + "someone")
  {
  }

  lemma Literal5()
    ensures Sample[5] == "@mention" + ([' '] + "someone")
  {
  }

  lemma Lower5()
    ensures LowerStr(Sample[5]) == Sample[5]
  {
    LowerFixed(Sample[5]);
  }

  lemma Tokens5()
    ensures TextTokens(Sample[5]) == ["@mention", "someone"]
  {
    Lower5();
    Spelled5();
    Literal5();
    TokensOfJoined(["@mention", "someone"], " ");
  }

  /** The tokens of six texts are those of each text, one after another. */
  lemma AllTokensOfSix(texts: seq<string>)
    requires |texts| == 6
    ensures AllTokens(texts) == TextTokens(texts[0]) + TextTokens(texts[1]) + TextTokens(texts[2])
                                + TextTokens(texts[3]) + TextTokens(texts[4]) + TextTokens(texts[5])
  {
    var e: seq<string> := [];
    assert texts[..0] == e;
    AllTokensSnoc(texts, 0);
    assert e + TextTokens(texts[0]) == TextTokens(texts[0]);
    AllTokensSnoc(texts, 1);
    AllTokensSnoc(texts, 2);
    AllTokensSnoc(texts, 3);
    AllTokensSnoc(texts, 4);
    AllTokensSnoc(texts, 5);
    assert texts[..6] == texts;
  }

  /** Every token of the six texts, in order. */
  lemma AllTokensOfSample()
    ensures AllTokens(Sample) ==
      ["hello", "world", "this", "is", "a", "test"] + ["hello", "again", "world", "this", "is", "fun"]
      + ["test", "test", "test"] + ["and", "another", "one"] + ["http", "//example", "com", "link"]
      + ["@mention", "someone"]
  {
    AllTokensOfSix(Sample);
    Tokens0(); Tokens1(); Tokens2(); Tokens3(); Tokens4(); Tokens5();
  }

  lemma NotPrefix(w: string, p: string, i: nat)
    requires i < |p| && (|w| < |p| || w[i] != p[i])
    ensures !StartsWith(w, p)
  {
    if |p| <= |w| {
      assert w[..|p|][i] == w[i];
    }
  }

  /** Every Russian stop word starts with a character from U+0400 on. */
  lemma RussianAreCyrillic()
    ensures forall w :: w in RussianStopWords ==> |w| > 0 && w[0] as int >= 0x400
  {
  }

  /** No English stop word is longer than five characters. */
  lemma EnglishAreShort()
    ensures forall w :: w in EnglishStopWords ==> |w| <= 5
  {
  }

  /** A word starting below U+0400 is no Russian stop word, and one longer than five is no English one. */
  lemma NotStopWord(w: string)
    requires |w| > 0 && w[0] as int < 0x400 && (|w| > 5 || w !in EnglishStopWords)
    ensures w !in StopWords
  {
    RussianAreCyrillic();
    EnglishAreShort();
  }

  /** A word of length above two that is no stop word and whose first characters rule out `@`, `#` and `http` is kept. */
  lemma KeptWord(w: string, i: nat)
    requires Utf16Length(w) > 2 && w !in StopWords
    requires w[0] != '@' && w[0] != '#'
    requires i < 4 && (|w| < 4 || w[i] != "http"[i])
    ensures Keep(w)
  {
    NotPrefix(w, "@", 0);
    NotPrefix(w, "#", 0);
    NotPrefix(w, "http", i);
  }

  lemma KeptHello()
    ensures Keep("hello")
  {
    assert "hello" !in EnglishStopWords;
    NotStopWord("hello");
    KeptWord("hello", 1);
  }

  lemma KeptWorld()
    ensures Keep("world")
  {
    assert "world" !in EnglishStopWords;
    NotStopWord("world");
    KeptWord("world", 0);
  }

  lemma KeptTest()
    ensures Keep("test")
  {
    assert "test" !in EnglishStopWords;
    NotStopWord("test");
    KeptWord("test", 0);
  }

  lemma KeptAgain()
    ensures Keep("again")
  {
    assert "again" !in EnglishStopWords;
    NotStopWord("again");
    KeptWord("again", 0);
  }

  lemma KeptFun()
    ensures Keep("fun")
  {
    assert "fun" !in EnglishStopWords;
    NotStopWord("fun");
    KeptWord("fun", 0);
  }

  lemma KeptAnother()
    ensures Keep("another")
  {
    NotStopWord("another");
    KeptWord("another", 0);
  }

  lemma KeptOne()
    ensures Keep("one")
  {
    assert "one" !in EnglishStopWords;
    NotStopWord("one");
    KeptWord("one", 0);
  }

  lemma KeptExample()
    ensures Keep("//example")
  {
    NotStopWord("//example");
    KeptWord("//example", 0);
  }

  lemma KeptCom()
    ensures Keep("com")
  {
    assert "com" !in EnglishStopWords;
    NotStopWord("com");
    KeptWord("com", 0);
  }

  lemma KeptLink()
    ensures Keep("link")
  {
    assert "link" !in EnglishStopWords;
    NotStopWord("link");
    KeptWord("link", 0);
  }

  lemma KeptSomeone()
    ensures Keep("someone")
  {
    NotStopWord("someone");
    KeptWord("someone", 0);
  }

  /** `this` and `and` are stop words, `is` and `a` are short, and the other two have a dropped prefix. */
  lemma DroppedWords()
    ensures "this" in EnglishStopWords && "and" in EnglishStopWords
    ensures Utf16Length("is") == 2 && Utf16Length("a") == 1
    ensures StartsWith("http", "http") && StartsWith("@mention", "@")
  {
    Utf16LengthBmp("is");
    Utf16LengthBmp("a");
    assert "http"[..4] == "http";
    assert "@mention"[..1] == "@";
  }

  /** `Filter` unfolded without its contract, which is cheaper to evaluate on a literal. */
  function Picks(ws: seq<string>, p: string -> bool): seq<string>
  {
    if ws == [] then [] else (if p(ws[0]) then [ws[0]] else []) + Picks(ws[1..], p)
  }

  /** `Filter` and its unfolded copy agree on every input. */
  lemma {:induction false} FilterIsPicks(ws: seq<string>, p: string -> bool)
    ensures Filter(ws, p) == Picks(ws, p)
    decreases |ws|
  {
    if ws != [] {
      FilterIsPicks(ws[1..], p);
    }
  }

  /** What the filter decides about each distinct token of the example. */
  predicate KeepsFixture(p: string -> bool)
  {
    KeepsWords(p) && DropsWords(p)
  }

  predicate KeepsWords(p: string -> bool)
  {
    && p("hello") && p("world") && p("test") && p("again") && p("fun") && p("another")
    && p("one") && p("//example") && p("com") && p("link") && p("someone")
  }

  predicate DropsWords(p: string -> bool)
  {
    !p("this") && !p("is") && !p("a") && !p("and") && !p("http") && !p("@mention")
  }

  lemma KeepFnKeepsWords()
    ensures KeepsWords(KeepFn())
  {
    KeptHello(); KeptWorld(); KeptTest(); KeptAgain(); KeptFun(); KeptAnother();
    KeptOne(); KeptExample(); KeptCom(); KeptLink(); KeptSomeone();
  }

  lemma KeepFnDropsWords()
    ensures DropsWords(KeepFn())
  {
    DroppedWords();
  }

  /** The counting filter decides as the example expects. */
  lemma KeepFnKeepsFixture()
    ensures KeepsFixture(KeepFn())
  {
    KeepFnKeepsWords();
    KeepFnDropsWords();
  }

  /** What a filter deciding as the example expects keeps of each text's tokens. */
  lemma Picks0(p: string -> bool)
    requires KeepsFixture(p)
    ensures Picks(["hello", "world", "this", "is", "a", "test"], p) == ["hello", "world", "test"]
  {
  }

  lemma Picks1(p: string -> bool)
    requires KeepsFixture(p)
    ensures Picks(["hello", "again", "world", "this", "is", "fun"], p) == ["hello", "again", "world", "fun"]
  {
  }

  lemma Picks2(p: string -> bool)
    requires KeepsFixture(p)
    ensures Picks(["test", "test", "test"], p) == ["test", "test", "test"]
  {
  }

  lemma Picks3(p: string -> bool)
    requires KeepsFixture(p)
    ensures Picks(["and", "another", "one"], p) == ["another", "one"]
  {
  }

  lemma Picks4(p: string -> bool)
    requires KeepsFixture(p)
    ensures Picks(["http", "//example", "com", "link"], p) == ["//example", "com", "link"]
  {
  }

  lemma Picks5(p: string -> bool)
    requires KeepsFixture(p)
    ensures Picks(["@mention", "someone"], p) == ["someone"]
  {
  }

  /** Filtering six token lists one after another is filtering each of them. */
  lemma FilterSix(t0: seq<string>, t1: seq<string>, t2: seq<string>, t3: seq<string>, t4: seq<string>,
                  t5: seq<string>, p: string -> bool)
    ensures Filter(t0 + t1 + t2 + t3 + t4 + t5, p)
            == Filter(t0, p) + Filter(t1, p) + Filter(t2, p) + Filter(t3, p) + Filter(t4, p) + Filter(t5, p)
  {
    FilterAppend(t0, t1, p);
    FilterAppend(t0 + t1, t2, p);
    FilterAppend(t0 + t1 + t2, t3, p);
    FilterAppend(t0 + t1 + t2 + t3, t4, p);
    FilterAppend(t0 + t1 + t2 + t3 + t4, t5, p);
  }

  /** The kept tokens of the six texts, put together. */
  lemma KeptJoined()
    ensures ["hello", "world", "test"] + ["hello", "again", "world", "fun"] + ["test", "test", "test"]
            + ["another", "one"] + ["//example", "com", "link"] + ["someone"]
            == ["hello", "world", "test", "hello", "again", "world", "fun", "test", "test", "test",
                "another", "one", "//example", "com", "link", "someone"]
  {
  }

  /** The counted tokens: sixteen of them, in order. */
  lemma KeptOfSample()
    ensures Kept(Sample) ==
      ["hello", "world", "test", "hello", "again", "world", "fun", "test", "test", "test",
       "another", "one", "//example", "com", "link", "someone"]
  {
    var t0, t1, t2 := ["hello", "world", "this", "is", "a", "test"], ["hello", "again", "world", "this", "is", "fun"],
                      ["test", "test", "test"];
    var t3, t4, t5 := ["and", "another", "one"], ["http", "//example", "com", "link"], ["@mention", "someone"];
    var p := KeepFn();
    AllTokensOfSample();
    FilterSix(t0, t1, t2, t3, t4, t5, p);
    KeepFnKeepsFixture();
    Picks0(p); FilterIsPicks(t0, p);
    Picks1(p); FilterIsPicks(t1, p);
    Picks2(p); FilterIsPicks(t2, p);
    Picks3(p); FilterIsPicks(t3, p);
    Picks4(p); FilterIsPicks(t4, p);
    Picks5(p); FilterIsPicks(t5, p);
    KeptJoined();
  }

  /** The map's key order built front to back, as the loop builds it. */
  function DedupFrom(acc: seq<string>, s: seq<string>): seq<string>
    decreases |s|
  {
    if s == [] then acc else DedupFrom(if s[0] in acc then acc else acc + [s[0]], s[1..])
  }

  /** Continuing the key order of `a` with the tokens of `b` gives the key order of `a + b`. */
  lemma {:induction false} DedupIsFrom(a: seq<string>, b: seq<string>)
    ensures DedupFrom(Dedup(a), b) == Dedup(a + b)
    decreases |b|
  {
    if b == [] {
      assert a + b == a;
    } else {
      var d := Dedup(a);
      var a' := a + [b[0]];
      calc {
        DedupFrom(d, b);
        DedupFrom(if b[0] in d then d else d + [b[0]], b[1..]);
        { DedupSnoc(a, b[0]); }
        DedupFrom(Dedup(a'), b[1..]);
        { DedupIsFrom(a', b[1..]); }
        Dedup(a' + b[1..]);
        { assert a' + b[1..] == a + b; }
        Dedup(a + b);
      }
    }
  }

  /** The key order can be built first over `a`, then over `b`. */
  lemma {:induction false} DedupFromAppend(acc: seq<string>, a: seq<string>, b: seq<string>)
    ensures DedupFrom(acc, a + b) == DedupFrom(DedupFrom(acc, a), b)
    decreases |a|
  {
    if a == [] {
      assert a + b == b;
    } else {
      assert (a + b)[1..] == a[1..] + b;
      DedupFromAppend(if a[0] in acc then acc else acc + [a[0]], a[1..], b);
    }
  }

  /** The key order after the kept tokens of each text in turn. */
  lemma DedupChunk0()
    ensures DedupFrom([], ["hello", "world", "test"])
            == ["hello", "world", "test"]
  {
  }

  lemma DedupChunk1()
    ensures DedupFrom(["hello", "world", "test"], ["hello", "again", "world", "fun"])
            == ["hello", "world", "test", "again", "fun"]
  {
  }

  lemma DedupChunk2()
    ensures DedupFrom(["hello", "world", "test", "again", "fun"], ["test", "test", "test"])
            == ["hello", "world", "test", "again", "fun"]
  {
  }

  lemma DedupChunk3()
    ensures DedupFrom(["hello", "world", "test", "again", "fun"], ["another", "one"])
            == ["hello", "world", "test", "again", "fun", "another", "one"]
  {
  }

  lemma DedupChunk4()
    ensures DedupFrom(["hello", "world", "test", "again", "fun", "another", "one"], ["//example", "com", "link"])
            == ["hello", "world", "test", "again", "fun", "another", "one", "//example", "com", "link"]
  {
  }

  lemma DedupChunk5()
    ensures DedupFrom(["hello", "world", "test", "again", "fun", "another", "one", "//example", "com", "link"], ["someone"])
            == ["hello", "world", "test", "again", "fun", "another", "one", "//example", "com", "link", "someone"]
  {
  }

  /** The key order of the counting map over the kept tokens: each word where it first occurs. */
  lemma DedupOfChunks(k: seq<string>, c0: seq<string>, c1: seq<string>, c2: seq<string>, c3: seq<string>,
                      c4: seq<string>, c5: seq<string>)
    requires c0 == ["hello", "world", "test"] && c1 == ["hello", "again", "world", "fun"]
    requires c2 == ["test", "test", "test"] && c3 == ["another", "one"]
    requires c4 == ["//example", "com", "link"] && c5 == ["someone"]
    requires k == c0 + c1 + c2 + c3 + c4 + c5
    ensures Dedup(k)
            == ["hello", "world", "test", "again", "fun", "another", "one", "//example", "com", "link", "someone"]
  {
    var e: seq<string> := [];
    DedupIsFrom(e, k);
    assert e + k == k;
    DedupFromAppend(e, c0 + c1 + c2 + c3 + c4, c5);
    DedupFromAppend(e, c0 + c1 + c2 + c3, c4);
    DedupFromAppend(e, c0 + c1 + c2, c3);
    DedupFromAppend(e, c0 + c1, c2);
    DedupFromAppend(e, c0, c1);
    DedupChunk0(); DedupChunk1(); DedupChunk2(); DedupChunk3(); DedupChunk4(); DedupChunk5();
  }

  /** The count of each distinct kept token. */
  lemma CountOfTest(k: seq<string>)
    requires k == ["hello", "world", "test"] + ["hello", "again", "world", "fun"] + ["test", "test", "test"]
                 + ["another", "one"] + ["//example", "com", "link"] + ["someone"]
    ensures multiset(k)["test"] == 4
  {
  }

  lemma CountOfHello(k: seq<string>)
    requires k == ["hello", "world", "test"] + ["hello", "again", "world", "fun"] + ["test", "test", "test"]
                 + ["another", "one"] + ["//example", "com", "link"] + ["someone"]
    ensures multiset(k)["hello"] == 2
  {
  }

  lemma CountOfWorld(k: seq<string>)
    requires k == ["hello", "world", "test"] + ["hello", "again", "world", "fun"] + ["test", "test", "test"]
                 + ["another", "one"] + ["//example", "com", "link"] + ["someone"]
    ensures multiset(k)["world"] == 2
  {
  }

  lemma CountOfAgain(k: seq<string>)
    requires k == ["hello", "world", "test"] + ["hello", "again", "world", "fun"] + ["test", "test", "test"]
                 + ["another", "one"] + ["//example", "com", "link"] + ["someone"]
    ensures multiset(k)["again"] == 1
  {
  }

  lemma CountOfFun(k: seq<string>)
    requires k == ["hello", "world", "test"] + ["hello", "again", "world", "fun"] + ["test", "test", "test"]
                 + ["another", "one"] + ["//example", "com", "link"] + ["someone"]
    ensures multiset(k)["fun"] == 1
  {
  }

  lemma CountOfAnother(k: seq<string>)
    requires k == ["hello", "world", "test"] + ["hello", "again", "world", "fun"] + ["test", "test", "test"]
                 + ["another", "one"] + ["//example", "com", "link"] + ["someone"]
    ensures multiset(k)["another"] == 1
  {
  }

  lemma CountOfOne(k: seq<string>)
    requires k == ["hello", "world", "test"] + ["hello", "again", "world", "fun"] + ["test", "test", "test"]
                 + ["another", "one"] + ["//example", "com", "link"] + ["someone"]
    ensures multiset(k)["one"] == 1
  {
  }

  lemma CountOfExample(k: seq<string>)
    requires k == ["hello", "world", "test"] + ["hello", "again", "world", "fun"] + ["test", "test", "test"]
                 + ["another", "one"] + ["//example", "com", "link"] + ["someone"]
    ensures multiset(k)["//example"] == 1
  {
  }

  lemma CountOfCom(k: seq<string>)
    requires k == ["hello", "world", "test"] + ["hello", "again", "world", "fun"] + ["test", "test", "test"]
                 + ["another", "one"] + ["//example", "com", "link"] + ["someone"]
    ensures multiset(k)["com"] == 1
  {
  }

  lemma CountOfLink(k: seq<string>)
    requires k == ["hello", "world", "test"] + ["hello", "again", "world", "fun"] + ["test", "test", "test"]
                 + ["another", "one"] + ["//example", "com", "link"] + ["someone"]
    ensures multiset(k)["link"] == 1
  {
  }

  lemma CountOfSomeone(k: seq<string>)
    requires k == ["hello", "world", "test"] + ["hello", "again", "world", "fun"] + ["test", "test", "test"]
                 + ["another", "one"] + ["//example", "com", "link"] + ["someone"]
    ensures multiset(k)["someone"] == 1
  {
  }

  /** The entries of the counting map for any token list with the example's counts. */
  lemma TallyOfCounts(k: seq<string>, d: seq<string>)
    requires d == ["hello", "world", "test", "again", "fun", "another", "one", "//example", "com", "link", "someone"]
    requires multiset(k)["hello"] == 2
    requires multiset(k)["world"] == 2
    requires multiset(k)["test"] == 4
    requires multiset(k)["again"] == 1
    requires multiset(k)["fun"] == 1
    requires multiset(k)["another"] == 1
    requires multiset(k)["one"] == 1
    requires multiset(k)["//example"] == 1
    requires multiset(k)["com"] == 1
    requires multiset(k)["link"] == 1
    requires multiset(k)["someone"] == 1
    ensures Tally(d, k) == SampleTally
  {
  }

  /** The entries of the counting map, in key order. */
  lemma TallyOfChunks(k: seq<string>, d: seq<string>)
    requires k == ["hello", "world", "test"] + ["hello", "again", "world", "fun"] + ["test", "test", "test"]
                 + ["another", "one"] + ["//example", "com", "link"] + ["someone"]
    requires d == ["hello", "world", "test", "again", "fun", "another", "one", "//example", "com", "link", "someone"]
    ensures Tally(d, k) == SampleTally
  {
    CountOfTest(k); CountOfHello(k); CountOfWorld(k); CountOfAgain(k); CountOfFun(k); CountOfAnother(k); CountOfOne(k); CountOfExample(k); CountOfCom(k); CountOfLink(k); CountOfSomeone(k);
    TallyOfCounts(k, d);
  }

  /** `Insert` and `SortDesc` on word counts, unfolded without their contracts. */
  function InsertPlain(x: WordCount, s: seq<WordCount>): seq<WordCount>
  {
    if s == [] || s[0].count <= x.count then [x] + s else [s[0]] + InsertPlain(x, s[1..])
  }

  function SortPlain(s: seq<WordCount>): seq<WordCount>
  {
    if s == [] then [] else InsertPlain(s[0], SortPlain(s[1..]))
  }

  /** The ranking and its unfolded copy agree on every input. */
  lemma {:induction false} InsertIsPlain(x: WordCount, s: seq<WordCount>)
    ensures Insert(x, s, CountOf()) == InsertPlain(x, s)
    decreases |s|
  {
    if s != [] && s[0].count > x.count {
      InsertIsPlain(x, s[1..]);
    }
  }

  lemma {:induction false} SortIsPlain(s: seq<WordCount>)
    ensures SortDesc(s, CountOf()) == SortPlain(s)
    decreases |s|
  {
    if s != [] {
      SortIsPlain(s[1..]);
      InsertIsPlain(s[0], SortPlain(s[1..]));
    }
  }

  /** The words of the example seen once, in key order. */
  const SampleOnes: seq<WordCount> := [WordCount("again", 1), WordCount("fun", 1), WordCount("another", 1), WordCount("one", 1), WordCount("//example", 1), WordCount("com", 1), WordCount("link", 1), WordCount("someone", 1)]

  /** An entry followed by entries of count one, none above it, is ranked. */
  lemma OnesRanked(c: WordCount, ones: seq<WordCount>)
    requires c.count >= 1
    requires forall i :: 0 <= i < |ones| ==> ones[i].count == 1
    ensures SortedDesc([c] + ones, CountOf())
  {
    var s := [c] + ones;
    forall i, j | 0 <= i < j < |s| ensures s[i].count >= s[j].count {
      assert s[j] == ones[j - 1];
      if i > 0 {
        assert s[i] == ones[i - 1];
      }
    }
  }

  lemma SortPlainSorted(s: seq<WordCount>)
    requires SortedDesc(s, CountOf())
    ensures SortPlain(s) == s
  {
    SortDescSorted(s, CountOf());
    SortIsPlain(s);
  }

  /** Ranking two entries in front of an already ranked list inserts the second one, then the first. */
  lemma SortPlainTwoMore(a: WordCount, b: WordCount, s: seq<WordCount>)
    ensures SortPlain([a, b] + s) == InsertPlain(a, InsertPlain(b, SortPlain(s)))
  {
    assert ([a, b] + s)[1..] == [b] + s;
    assert ([b] + s)[1..] == s;
  }

  /** An entry at least as large as the first one goes in front. */
  lemma InsertInFront(x: WordCount, s: seq<WordCount>)
    requires s == [] || s[0].count <= x.count
    ensures InsertPlain(x, s) == [x] + s
  {
  }

  /** An entry smaller than the first one goes after it. */
  lemma InsertBehind(x: WordCount, y: WordCount, s: seq<WordCount>)
    requires y.count > x.count
    ensures InsertPlain(x, [y] + s) == [y] + InsertPlain(x, s)
  {
    assert ([y] + s)[0] == y && ([y] + s)[1..] == s;
  }

  /**
   * Two tied entries inserted in front of a larger one followed by smaller
   * ones: the larger one comes first, then the two in their order.
   */
  lemma InsertTied(a: WordCount, b: WordCount, c: WordCount, rest: seq<WordCount>)
    requires a.count == b.count < c.count
    requires rest == [] || rest[0].count <= b.count
    ensures InsertPlain(a, InsertPlain(b, [c] + rest)) == [c, a, b] + rest
  {
    InsertBehind(b, c, rest);
    InsertInFront(b, rest);
    InsertBehind(a, c, [b] + rest);
    InsertInFront(a, [b] + rest);
    assert [c] + ([a] + ([b] + rest)) == [c, a, b] + rest;
  }

  /** Two tied entries, then a larger one, then entries of count one: the larger one moves to the front. */
  lemma RankOfShape(a: WordCount, b: WordCount, c: WordCount, ones: seq<WordCount>)
    requires 1 <= a.count == b.count < c.count
    requires forall i :: 0 <= i < |ones| ==> ones[i].count == 1
    ensures SortPlain([a, b] + ([c] + ones)) == [c, a, b] + ones
  {
    OnesRanked(c, ones);
    SortPlainSorted([c] + ones);
    SortPlainTwoMore(a, b, [c] + ones);
    InsertTied(a, b, c, ones);
  }

  /** The tally and the ranking of the example, cut into their parts. */
  lemma SampleParts()
    ensures SampleTally == [WordCount("hello", 2), WordCount("world", 2)] + ([WordCount("test", 4)] + SampleOnes)
    ensures SampleRanking == [WordCount("test", 4), WordCount("hello", 2), WordCount("world", 2)] + SampleOnes
  {
  }

  /** `test` moves to the front; `hello` and `world` tie and keep their order. */
  lemma PlainRankOfTally(t: seq<WordCount>)
    requires t == SampleTally
    ensures SortPlain(t) == SampleRanking
  {
    SampleParts();
    assert forall i :: 0 <= i < |SampleOnes| ==> SampleOnes[i].count == 1;
    RankOfShape(WordCount("hello", 2), WordCount("world", 2), WordCount("test", 4), SampleOnes);
  }

  lemma RankOfTally(t: seq<WordCount>)
    requires t == SampleTally
    ensures SortDesc(t, CountOf()) == SampleRanking
  {
    PlainRankOfTally(t);
    SortIsPlain(t);
  }

  /** The kept tokens, text by text. */
  lemma KeptInChunks(k: seq<string>)
    requires k == Kept(Sample)
    ensures k == ["hello", "world", "test"] + ["hello", "again", "world", "fun"] + ["test", "test", "test"]
                 + ["another", "one"] + ["//example", "com", "link"] + ["someone"]
  {
    KeptOfSample();
    KeptJoined();
  }

  /** The counting map of the example. */
  lemma TallyOfSample(k: seq<string>)
    requires k == Kept(Sample)
    ensures Tally(Dedup(k), k) == SampleTally
  {
    var c0, c1, c2 := ["hello", "world", "test"], ["hello", "again", "world", "fun"], ["test", "test", "test"];
    var c3, c4, c5 := ["another", "one"], ["//example", "com", "link"], ["someone"];
    KeptInChunks(k);
    DedupOfChunks(k, c0, c1, c2, c3, c4, c5);
    TallyOfChunks(k, Dedup(k));
  }

  /** The full ranking of the example. */
  lemma RankedSample()
    ensures Ranked(Sample) == SampleRanking
  {
    var k := Kept(Sample);
    TallyOfSample(k);
    RankOfTally(Tally(Dedup(k), k));
  }

  /** `slice(0, 5)` of the ranking. */
  lemma TakeFive(r: seq<WordCount>)
    requires r == SampleRanking
    ensures Take(r, 5) == SampleTop
  {
    assert r[..5] == [r[0], r[1], r[2], r[3], r[4]];
  }

  lemma SampleSize()
    ensures |Sample| == 6
  {
  }

  /** Six texts: the cloud is the first five of the ranking, out of six messages. */
  lemma TopWordsOfSampleRanking()
    ensures TopWords(Sample, 5) == WordCloud(Take(Ranked(Sample), 5), 6)
  {
    SampleSize();
  }

  /** The example's expected cloud: `test` four times, `hello` and `world` twice, then the first words seen once. */
  lemma TopWordsOfSample()
    ensures TopWords(Sample, 5) == WordCloud(SampleTop, 6)
  {
    TopWordsOfSampleRanking();
    RankedSample();
    TakeFive(Ranked(Sample));
  }
}
