/**
 * The word-frequency engine of `WordCloudService.getTopWords`
 * (bot/src/services/wordcloud.service.ts): every text is lower-cased and
 * split on a fixed class of separators; tokens that are short, stop words,
 * mentions, hashtags or links are dropped; the rest are counted in a map
 * that remembers insertion order, ranked by count (ties in insertion order)
 * and cut to `limit`.
 */
module WordCloudService {
  import opened Wrappers
  import opened Calendar
  import opened Period
  import opened Records
  import opened Seqs
  import opened Ranking
  import opened MessageModel

  /** `toLowerCase` on the scripts the stop words use: Latin A-Z and Cyrillic U+0400-U+042F. */
  function Lower(c: char): char
  {
    if 'A' <= c <= 'Z' then (c as int + 32) as char
    else if 0x410 <= c as int <= 0x42F then (c as int + 0x20) as char
    else if 0x400 <= c as int <= 0x40F then (c as int + 0x50) as char
    else c
  }

  function LowerStr(s: string): (r: string)
    ensures |r| == |s|
    ensures forall i :: 0 <= i < |s| ==> r[i] == Lower(s[i])
  {
    seq(|s|, i requires 0 <= i < |s| => Lower(s[i]))
  }

  /** Lower-casing a lower-cased text changes nothing. */
  lemma LowerStrIdempotent(s: string)
    ensures LowerStr(LowerStr(s)) == LowerStr(s)
  {
    var t := LowerStr(s);
    forall i | 0 <= i < |s| ensures Lower(t[i]) == t[i] {
      var c := s[i];
      if 'A' <= c <= 'Z' {
        assert 'a' <= t[i] <= 'z';
      } else if 0x410 <= c as int <= 0x42F {
        assert 0x430 <= t[i] as int <= 0x44F;
      } else if 0x400 <= c as int <= 0x40F {
        assert 0x450 <= t[i] as int <= 0x45F;
      }
    }
  }

  /**
   * The class `[\s,.;:!?()"'{}\[\]<>«»—–]`: the white space of JavaScript's
   * `\s` and the listed punctuation.
   */
  predicate IsSeparator(c: char)
  {
    var n := c as int;
    || 9 <= n <= 13 || n == 0x20 || n == 0xA0 || n == 0x1680
    || 0x2000 <= n <= 0x200A || n == 0x2028 || n == 0x2029 || n == 0x202F
    || n == 0x205F || n == 0x3000 || n == 0xFEFF
    || c == ',' || c == '.' || c == ';' || c == ':' || c == '!' || c == '?'
    || c == '(' || c == ')' || c == '"' || c == '\'' || c == '{' || c == '}'
    || c == '[' || c == ']' || c == '<' || c == '>'
    || n == 0xAB || n == 0xBB || n == 0x2014 || n == 0x2013
  }

  predicate NoSeparator(w: string)
  {
    forall i :: 0 <= i < |w| ==> !IsSeparator(w[i])
  }

  /** The length of the separator-free run at the start of `s`. */
  function WordLength(s: string): (n: nat)
    ensures n <= |s|
    ensures forall i :: 0 <= i < n ==> !IsSeparator(s[i])
    ensures n == |s| || IsSeparator(s[n])
  {
    if s == [] || IsSeparator(s[0]) then 0 else 1 + WordLength(s[1..])
  }

  /**
   * `split(/[...]+/)` without the empty pieces it yields at either end of
   * the text: the maximal separator-free runs, in order. (An empty piece is
   * dropped by the length filter anyway.)
   */
  function Tokens(s: string): (r: seq<string>)
    ensures forall k :: 0 <= k < |r| ==> |r[k]| > 0 && NoSeparator(r[k])
    decreases |s|
  {
    if s == [] then []
    else if IsSeparator(s[0]) then Tokens(s[1..])
    else
      var n := WordLength(s);
      [s[..n]] + Tokens(s[n..])
  }

  /** A run that the next character ends keeps its length when more text follows. */
  lemma {:induction false} WordLengthAppend(a: string, t: string)
    requires WordLength(a) < |a| || (|t| > 0 && IsSeparator(t[0]))
    ensures WordLength(a + t) == WordLength(a)
    decreases |a|
  {
    if a == [] {
    } else if IsSeparator(a[0]) {
    } else {
      assert (a + t)[1..] == a[1..] + t;
      WordLengthAppend(a[1..], t);
    }
  }

  /** A non-empty text without separators is one token. */
  lemma WordIsToken(w: string)
    requires |w| > 0 && NoSeparator(w)
    ensures Tokens(w) == [w]
  {
    assert WordLength(w) == |w|;
    assert w[..|w|] == w && w[|w|..] == [];
  }

  /** A separator cuts the text into two parts that split independently. */
  lemma {:induction false} TokensAtSeparator(a: string, c: char, b: string)
    requires IsSeparator(c)
    ensures Tokens(a + [c] + b) == Tokens(a) + Tokens(b)
    decreases |a|
  {
    var s := a + [c] + b;
    if a == [] {
      assert s == [c] + b && s[1..] == b;
    } else if IsSeparator(a[0]) {
      assert s[1..] == a[1..] + [c] + b;
      TokensAtSeparator(a[1..], c, b);
    } else {
      var n := WordLength(a);
      assert s == a + ([c] + b);
      WordLengthAppend(a, [c] + b);
      assert s[..n] == a[..n];
      if n < |a| {
        assert s[n..] == a[n..] + [c] + b;
        TokensAtSeparator(a[n..], c, b);
      } else {
        assert s[n..] == [c] + b && ([c] + b)[1..] == b;
        assert a[..n] == a && a[n..] == [];
      }
    }
  }

  /** Words joined by single separators: `seps[i]` stands between `ws[i]` and `ws[i + 1]`. */
  function Joined(ws: seq<string>, seps: seq<char>): string
    requires |ws| == |seps| + 1
  {
    JoinFrom(ws, seps, 0)
  }

  /** The words from index `i` on, joined. */
  function JoinFrom(ws: seq<string>, seps: seq<char>, i: nat): string
    requires |ws| == |seps| + 1 && i < |ws|
    decreases |ws| - i
  {
    if i == |seps| then ws[i] else ws[i] + ([seps[i]] + JoinFrom(ws, seps, i + 1))
  }

  /** Splitting undoes joining: non-empty separator-free words joined by separators split back into those words. */
  lemma TokensOfJoined(ws: seq<string>, seps: seq<char>)
    requires |ws| == |seps| + 1
    requires forall i :: 0 <= i < |ws| ==> |ws[i]| > 0 && NoSeparator(ws[i])
    requires forall i :: 0 <= i < |seps| ==> IsSeparator(seps[i])
    ensures Tokens(Joined(ws, seps)) == ws
  {
    TokensOfJoinFrom(ws, seps, 0);
    assert ws[0..] == ws;
  }

  lemma {:induction false} TokensOfJoinFrom(ws: seq<string>, seps: seq<char>, i: nat)
    requires |ws| == |seps| + 1 && i < |ws|
    requires forall j :: 0 <= j < |ws| ==> |ws[j]| > 0 && NoSeparator(ws[j])
    requires forall j :: 0 <= j < |seps| ==> IsSeparator(seps[j])
    ensures Tokens(JoinFrom(ws, seps, i)) == ws[i..]
    decreases |ws| - i
  {
    WordIsToken(ws[i]);
    if i < |seps| {
      var rest := JoinFrom(ws, seps, i + 1);
      TokensOfJoinFrom(ws, seps, i + 1);
      assert ws[i] + ([seps[i]] + rest) == ws[i] + [seps[i]] + rest;
      TokensAtSeparator(ws[i], seps[i], rest);
      assert ws[i..] == [ws[i]] + ws[i + 1..];
    } else {
      assert ws[i..] == [ws[i]];
    }
  }

  /** Below U+10000 every character is one UTF-16 code unit. */
  lemma {:induction false} Utf16LengthBmp(w: string)
    requires forall i :: 0 <= i < |w| ==> w[i] as int < 0x10000
    ensures Utf16Length(w) == |w|
  {
    if w != [] {
      Utf16LengthBmp(w[1..]);
    }
  }

  /** `word.length`: JavaScript counts UTF-16 code units, two for a character beyond U+FFFF. */
  function Utf16Length(w: string): nat
  {
    if w == [] then 0 else (if w[0] as int >= 0x10000 then 2 else 1) + Utf16Length(w[1..])
  }

  /** `stopWords`, its Russian half. */
  const RussianStopWords: set<string> := {
    "и", "в", "не", "на", "я", "что", "с", "а", "как", "это", "по",
    "но", "для", "за", "к", "у", "о", "из", "от", "то", "же", "бы", "ну",
    "да", "нет", "все", "всё", "он", "она", "они", "мы", "вы", "ты", "так",
    "вот", "там", "тут", "еще", "ещё", "когда", "где", "кто"
  }

  /** `stopWords`, its English half. */
  const EnglishStopWords: set<string> := {
    "the", "a", "an", "and", "or", "but", "in", "on", "at", "to", "for",
    "is", "are", "was", "were", "be", "being", "been", "it", "i", "you",
    "he", "she", "we", "they", "of", "with", "that", "this", "my", "your",
    "not", "so", "if", "me", "just", "do", "im"
  }

  const StopWords: set<string> := RussianStopWords + EnglishStopWords

  predicate StartsWith(w: string, prefix: string)
  {
    |prefix| <= |w| && w[..|prefix|] == prefix
  }

  /** The filter of the inner loop: longer than two, not a stop word, not a mention, hashtag or link. */
  predicate Keep(w: string)
  {
    && Utf16Length(w) > 2
    && w !in StopWords
    && !StartsWith(w, "@")
    && !StartsWith(w, "#")
    && !StartsWith(w, "http")
  }

  function KeepFn(): string -> bool
  {
    (w: string) => Keep(w)
  }

  /** The tokens of one text after lower-casing. */
  function TextTokens(text: string): seq<string>
  {
    Tokens(LowerStr(text))
  }

  /** Every token of every text, in order. */
  function AllTokens(texts: seq<string>): seq<string>
  {
    if texts == [] then [] else AllTokens(texts[..|texts| - 1]) + TextTokens(texts[|texts| - 1])
  }

  /** The tokens that are counted. */
  function Kept(texts: seq<string>): seq<string>
  {
    Filter(AllTokens(texts), KeepFn())
  }

  /** The distinct elements of `s` in order of first occurrence: the key order of a JavaScript `Map`. */
  function Dedup(s: seq<string>): (r: seq<string>)
    ensures forall w :: w in r <==> w in s
    ensures NoDuplicates(r)
  {
    if s == [] then []
    else
      var d := Dedup(s[..|s| - 1]);
      var x := s[|s| - 1];
      assert s == s[..|s| - 1] + [x];
      if x in d then d else d + [x]
  }

  /** The map's entries: each distinct token with the number of its occurrences in `k`. */
  function Tally(ws: seq<string>, k: seq<string>): (r: seq<WordCount>)
    ensures |r| == |ws|
    ensures forall i :: 0 <= i < |ws| ==> r[i] == WordCount(ws[i], multiset(k)[ws[i]])
  {
    seq(|ws|, i requires 0 <= i < |ws| => WordCount(ws[i], multiset(k)[ws[i]]))
  }

  function CountOf(): WordCount -> int
  {
    (e: WordCount) => e.count
  }

  /** Every distinct counted token with its count, most frequent first, ties in first-occurrence order. */
  function Ranked(texts: seq<string>): seq<WordCount>
  {
    var k := Kept(texts);
    SortDesc(Tally(Dedup(k), k), CountOf())
  }

  datatype WordCloud = WordCloud(words: seq<WordCount>, totalMessages: nat)

  /** The reference result for the fetched texts. */
  function TopWords(texts: seq<string>, limit: nat): WordCloud
  {
    if |texts| == 0 then WordCloud([], 0)
    else WordCloud(Take(Ranked(texts), limit), |texts|)
  }

  /** `SELECT message_text`. */
  function Texts(q: seq<Message>): (r: seq<string>)
    ensures |r| == |q|
    ensures forall i :: 0 <= i < |q| ==> r[i] == q[i].messageText
  {
    seq(|q|, i requires 0 <= i < |q| => q[i].messageText)
  }

  /** One more token of the current text: the counted tokens grow by it when it is kept. */
  lemma KeptStep(before: seq<string>, words: seq<string>, j: nat)
    requires j < |words|
    ensures Filter(before + words[..j + 1], KeepFn())
            == Filter(before + words[..j], KeepFn()) + (if Keep(words[j]) then [words[j]] else [])
  {
    assert before + words[..j + 1] == (before + words[..j]) + [words[j]];
    FilterSnoc(before + words[..j], words[j], KeepFn());
  }

  /** The last token of a text finishes the counted tokens of the texts so far. */
  lemma KeptText(texts: seq<string>, i: nat)
    requires i < |texts|
    ensures Kept(texts[..i + 1]) == Filter(AllTokens(texts[..i]) + TextTokens(texts[i])[..|TextTokens(texts[i])|], KeepFn())
  {
    AllTokensSnoc(texts, i);
    var words := TextTokens(texts[i]);
    assert words[..|words|] == words;
  }

  lemma DedupSnoc(s: seq<string>, w: string)
    ensures Dedup(s + [w]) == if w in Dedup(s) then Dedup(s) else Dedup(s) + [w]
  {
    assert (s + [w])[..|s|] == s;
  }

  lemma AllTokensSnoc(texts: seq<string>, i: nat)
    requires i < |texts|
    ensures AllTokens(texts[..i + 1]) == AllTokens(texts[..i]) + TextTokens(texts[i])
  {
    assert texts[..i + 1][..i] == texts[..i];
  }

  /**
   * The state of the counting map after the tokens `seen`: its keys in
   * first-insertion order, and each key's count.
   */
  ghost predicate Counts(seen: seq<string>, order: seq<string>, freq: map<string, nat>)
  {
    && order == Dedup(seen)
    && (forall w :: w in freq <==> w in order)
    && (forall w :: w in freq ==> freq[w] == multiset(seen)[w])
  }

  /** `set(word, (get(word) || 0) + 1)` keeps the map in step with one more token. */
  lemma CountStep(seen: seq<string>, order: seq<string>, freq: map<string, nat>, w: string)
    requires Counts(seen, order, freq)
    ensures Counts(seen + [w], if w in freq then order else order + [w],
                   freq[w := if w in freq then freq[w] + 1 else 1])
  {
    DedupSnoc(seen, w);
  }

  /**
   * The counting loops: for each text, for each of its tokens, a kept token
   * has its count raised by one, and a new one is added at the end of the
   * map's key order with count one.
   */
  method CountWords(texts: seq<string>) returns (order: seq<string>, freq: map<string, nat>)
    ensures order == Dedup(Kept(texts))
    ensures forall w :: w in freq <==> w in order
    ensures forall w :: w in freq ==> freq[w] == multiset(Kept(texts))[w]
  {
    order, freq := [], map[];
    ghost var seen: seq<string> := [];
    for i := 0 to |texts|
      invariant seen == Kept(texts[..i])
      invariant Counts(seen, order, freq)
    {
      var words := TextTokens(texts[i]);
      ghost var before := AllTokens(texts[..i]);
      assert before + words[..0] == before;
      for j := 0 to |words|
        invariant seen == Filter(before + words[..j], KeepFn())
        invariant Counts(seen, order, freq)
      {
        var w := words[j];
        KeptStep(before, words, j);
        if Keep(w) {
          CountStep(seen, order, freq, w);
          if w in freq {
            freq := freq[w := freq[w] + 1];
          } else {
            order := order + [w];
            freq := freq[w := 1];
          }
          seen := seen + [w];
        }
      }
      KeptText(texts, i);
    }
    assert texts[..|texts|] == texts;
  }

  /**
   * `getTopWords`: resolve the period, fetch the texts of the chat since its
   * start, count, rank and keep the first `limit` entries.
   */
  method GetTopWords(conn: Connection, chatId: int, p: Period, now: DateTime, limit: nat := 20)
    returns (r: Result<WordCloud, DbError>)
    requires Valid(now)
    ensures conn.Down? ==> r == Failure(conn.error)
    ensures conn.Connected? ==>
              r == Success(TopWords(Texts(InPeriod(conn.tables.messages, chatId, StartMillis(p, now))), limit))
  {
    var start := GetStartDate(p, now);
    if conn.Down? {
      return Failure(conn.error);
    }
    var texts := Texts(InPeriod(conn.tables.messages, chatId, Millis(start)));
    if |texts| == 0 {
      return Success(WordCloud([], 0));
    }
    var order, freq := CountWords(texts);
    var entries := seq(|order|, i requires 0 <= i < |order| => WordCount(order[i], freq[order[i]]));
    CountsAsTally(order, freq, Kept(texts), entries);
    var sorted := SortDesc(entries, CountOf());
    assert sorted == Ranked(texts);
    return Success(WordCloud(Take(sorted, limit), |texts|));
  }

  /** The map's entries in key order are the tally of the counted tokens. */
  lemma CountsAsTally(order: seq<string>, freq: map<string, nat>, k: seq<string>, entries: seq<WordCount>)
    requires forall w :: w in freq <==> w in order
    requires forall w :: w in freq ==> freq[w] == multiset(k)[w]
    requires |entries| == |order|
    requires forall i :: 0 <= i < |order| ==> order[i] in freq && entries[i] == WordCount(order[i], freq[order[i]])
    ensures entries == Tally(order, k)
  {
    var t := Tally(order, k);
    forall i | 0 <= i < |order| ensures entries[i] == t[i] {
      assert order[i] in freq;
    }
  }

  /** No fetched text: no words and a total of zero. */
  lemma TopWordsOfNothing(limit: nat)
    ensures TopWords([], limit) == WordCloud([], 0)
  {
  }

  /**
   * Every word returned passes the filter, occurs as often among all the
   * lower-cased tokens as its count says, and appears once.
   */
  lemma TopWordsFiltered(texts: seq<string>, limit: nat)
    ensures var r := TopWords(texts, limit).words;
            && (forall i :: 0 <= i < |r| ==>
                  && Utf16Length(r[i].word) > 2
                  && r[i].word !in StopWords
                  && !StartsWith(r[i].word, "@") && !StartsWith(r[i].word, "#") && !StartsWith(r[i].word, "http")
                  && r[i].count == multiset(AllTokens(texts))[r[i].word]
                  && r[i].count > 0)
            && (forall i, j :: 0 <= i < j < |r| ==> r[i].word != r[j].word)
  {
    if |texts| > 0 {
      var k := Kept(texts);
      var t := Tally(Dedup(k), k);
      var sorted := SortDesc(t, CountOf());
      var r := Take(sorted, limit);
      forall i | 0 <= i < |r|
        ensures && Keep(r[i].word)
                && r[i].count == multiset(AllTokens(texts))[r[i].word]
                && r[i].count > 0
      {
        assert r[i] == sorted[i];
        assert sorted[i] in multiset(t);
        var j :| 0 <= j < |t| && t[j] == r[i];
        assert r[i].word in k;
        FilterKeepsCount(AllTokens(texts), KeepFn(), r[i].word);
      }
      forall i, j | 0 <= i < j < |r| ensures r[i].word != r[j].word {
        TallyDistinct(Dedup(k), k, sorted, i, j);
      }
    }
  }

  /** Two positions of a permutation of a tally over distinct words hold different words. */
  lemma TallyDistinct(ws: seq<string>, k: seq<string>, sorted: seq<WordCount>, i: int, j: int)
    requires NoDuplicates(ws)
    requires multiset(sorted) == multiset(Tally(ws, k))
    requires 0 <= i < j < |sorted|
    ensures sorted[i].word != sorted[j].word
  {
    var t := Tally(ws, k);
    assert sorted[i] in multiset(t) && sorted[j] in multiset(t);
    var a :| 0 <= a < |t| && t[a] == sorted[i];
    var b :| 0 <= b < |t| && t[b] == sorted[j];
    TallyOnce(ws, k, a);
    OnceApart(sorted, i, j);
    assert sorted[i] != sorted[j];
    assert a != b;
  }

  /** An element that a sequence holds once is at no other position. */
  lemma OnceApart<T>(s: seq<T>, i: int, j: int)
    requires 0 <= i < j < |s|
    requires multiset(s)[s[i]] == 1
    ensures s[i] != s[j]
  {
    assert s == s[..j] + [s[j]] + s[j + 1..];
    assert s[i] == s[..j][i];
    assert multiset(s)[s[i]] >= multiset(s[..j])[s[i]] + multiset([s[j]])[s[i]];
  }

  /** A tally over distinct words holds each of its entries once. */
  lemma TallyOnce(ws: seq<string>, k: seq<string>, a: int)
    requires NoDuplicates(ws)
    requires 0 <= a < |ws|
    ensures multiset(Tally(ws, k))[Tally(ws, k)[a]] == 1
  {
    var t := Tally(ws, k);
    forall b | 0 <= b < |t| && b != a ensures t[b] != t[a] {
      assert t[b].word == ws[b] && t[a].word == ws[a];
    }
    SingleOccurrence(t, a);
  }

  /** An element found at no other position occurs once. */
  lemma SingleOccurrence<T>(s: seq<T>, a: int)
    requires 0 <= a < |s|
    requires forall b :: 0 <= b < |s| && b != a ==> s[b] != s[a]
    ensures multiset(s)[s[a]] == 1
  {
    var x := s[a];
    var l, r := s[..a], s[a + 1..];
    assert s == l + [x] + r;
    assert x !in l by {
      forall b | 0 <= b < |l| ensures l[b] != x {
        assert l[b] == s[b];
      }
    }
    assert x !in r by {
      forall b | 0 <= b < |r| ensures r[b] != x {
        assert r[b] == s[a + 1 + b];
      }
    }
    assert multiset(s) == multiset(l) + multiset{x} + multiset(r);
  }

  /**
   * Most frequent first; entries of equal count in the order their words
   * first occurred; at most `limit` of them, a prefix of the full ranking,
   * which holds every counted token; and as many messages as texts fetched.
   */
  lemma TopWordsRanked(texts: seq<string>, limit: nat, c: int)
    requires |texts| > 0
    ensures var r := TopWords(texts, limit);
            var k := Kept(texts);
            && SortedDesc(r.words, CountOf())
            && |r.words| <= limit
            && |r.words| == (if limit < |Ranked(texts)| then limit else |Ranked(texts)|)
            && r.words <= Ranked(texts)
            && WithKey(Ranked(texts), CountOf(), c) == WithKey(Tally(Dedup(k), k), CountOf(), c)
            && (forall w :: w in k ==> WordCount(w, multiset(k)[w]) in Ranked(texts))
            && r.totalMessages == |texts|
  {
    var k := Kept(texts);
    var t := Tally(Dedup(k), k);
    var sorted := SortDesc(t, CountOf());
    SortKeepsTies(t, CountOf(), c);
    forall w | w in k ensures WordCount(w, multiset(k)[w]) in sorted {
      var d := Dedup(k);
      var j :| 0 <= j < |d| && d[j] == w;
      assert t[j] == WordCount(w, multiset(k)[w]);
      assert t[j] in multiset(t);
    }
    var r := Take(sorted, limit);
    forall i, j | 0 <= i < j < |r| ensures r[i].count >= r[j].count {
      assert r[i] == sorted[i] && r[j] == sorted[j];
    }
  }
}
