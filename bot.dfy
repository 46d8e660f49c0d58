/**
 * The chatbot's data preparation and reply guards (`safe_tokenize_and_lemmatize`
 * and `ChatbotAssistant` in GUIproject/shared/bot.py).
 *
 * The neural network, NLTK and `random.choice` are outside the model: the
 * class predicted for a bag-of-words vector, the NLTK tokenisation (when NLTK
 * imported) and the index `random.choice` draws are inputs. The intents file is
 * given as its parsed list of intents, or None when it does not exist.
 */
module Bot {
  import opened Wrappers

  // ---------------------------------------------------------------------------
  // Tokenizer

  /** A character of the fallback pattern `[A-Za-z']`. */
  predicate WordChar(c: char)
  {
    'A' <= c <= 'Z' || 'a' <= c <= 'z' || c == '\''
  }

  /**
   * `re.findall(r"[A-Za-z']+", ...)` over `s`, with `cur` the run of word
   * characters already read: the maximal runs, left to right.
   */
  function Runs(s: string, cur: string): seq<string>
    decreases |s|
  {
    if s == [] then (if cur == [] then [] else [cur])
    else if WordChar(s[0]) then Runs(s[1..], cur + [s[0]])
    else (if cur == [] then [] else [cur]) + Runs(s[1..], [])
  }

  function FindAll(s: string): seq<string>
  {
    Runs(s, [])
  }

  /** `s` cut at every character outside `[A-Za-z']`; a reference for `FindAll`. */
  function Fields(s: string): (r: seq<string>)
    ensures |r| >= 1
  {
    if s == [] then [[]]
    else
      var rest := Fields(s[1..]);
      if WordChar(s[0]) then [[s[0]] + rest[0]] + rest[1..] else [[]] + rest
  }

  function NonEmpty(ps: seq<string>): seq<string>
  {
    if ps == [] then [] else (if ps[0] == [] then [] else [ps[0]]) + NonEmpty(ps[1..])
  }

  lemma {:induction false} NonEmptyAppend(a: seq<string>, b: seq<string>)
    ensures NonEmpty(a + b) == NonEmpty(a) + NonEmpty(b)
  {
    if a == [] {
      assert a + b == b;
    } else {
      assert (a + b)[0] == a[0];
      assert (a + b)[1..] == a[1..] + b;
      NonEmptyAppend(a[1..], b);
    }
  }

  lemma {:induction false} RunsAreFields(s: string, cur: string)
    ensures Runs(s, cur) == NonEmpty([cur + Fields(s)[0]] + Fields(s)[1..])
    decreases |s|
  {
    if s == [] {
      assert cur + [] == cur;
      assert [cur][1..] == [];
    } else {
      var rest := Fields(s[1..]);
      if WordChar(s[0]) {
        RunsAreFields(s[1..], cur + [s[0]]);
        assert cur + [s[0]] + rest[0] == cur + ([s[0]] + rest[0]);
      } else {
        RunsAreFields(s[1..], []);
        assert [] + rest[0] == rest[0];
        assert [rest[0]] + rest[1..] == rest;
        assert cur + [] == cur;
        NonEmptyAppend([cur], rest);
        assert [cur][1..] == [];
      }
    }
  }

  /** The fallback tokens are the pieces between characters outside `[A-Za-z']`, the empty pieces dropped. */
  lemma FindAllIsFields(s: string)
    ensures FindAll(s) == NonEmpty(Fields(s))
  {
    RunsAreFields(s, []);
    var f := Fields(s);
    var none: string := [];
    assert none + f[0] == f[0];
    assert [f[0]] + f[1..] == f;
  }

  /** Every piece of `Fields` is made of word characters only. */
  lemma {:induction false} FieldsAreWords(s: string)
    ensures forall k, j :: 0 <= k < |Fields(s)| && 0 <= j < |Fields(s)[k]| ==> WordChar(Fields(s)[k][j])
  {
    if s != [] {
      FieldsAreWords(s[1..]);
    }
  }

  lemma {:induction false} NonEmptyKeeps(ps: seq<string>)
    ensures forall t :: t in NonEmpty(ps) ==> t != [] && t in ps
  {
    if ps != [] {
      NonEmptyKeeps(ps[1..]);
    }
  }

  /** `c.lower()` on the characters the pattern admits. */
  function Lower(c: char): char
  {
    if 'A' <= c <= 'Z' then (c as int + 32) as char else c
  }

  function LowerWord(t: string): (r: string)
    ensures |r| == |t| && forall j :: 0 <= j < |t| ==> r[j] == Lower(t[j])
  {
    seq(|t|, j requires 0 <= j < |t| => Lower(t[j]))
  }

  /**
   * `safe_tokenize_and_lemmatize(text)`: `text or ""`, then NLTK's tokens when
   * NLTK imported (`nlp`), and otherwise the regex fallback, lower-cased.
   */
  function Tokenize(text: Option<string>, nlp: Option<string -> seq<string>>): seq<string>
  {
    var s := if text.Some? then text.value else "";
    match nlp
    case Some(f) => f(s)
    case None => seq(|FindAll(s)|, k requires 0 <= k < |FindAll(s)| => LowerWord(FindAll(s)[k]))
  }

  /**
   * Without NLTK, no text and empty text give no tokens, and every token is a
   * non-empty run of lower-case letters and apostrophes.
   */
  lemma FallbackTokens(text: Option<string>)
    ensures Tokenize(None, None) == [] && Tokenize(Some(""), None) == []
    ensures forall k :: 0 <= k < |Tokenize(text, None)| ==>
              var t := Tokenize(text, None)[k];
              t != [] && forall j :: 0 <= j < |t| ==> ('a' <= t[j] <= 'z' || t[j] == '\'')
  {
    var s := if text.Some? then text.value else "";
    FindAllIsFields(s);
    FieldsAreWords(s);
    NonEmptyKeeps(Fields(s));
    var runs := FindAll(s);
    var toks := Tokenize(text, None);
    forall k | 0 <= k < |toks|
      ensures toks[k] != [] && forall j :: 0 <= j < |toks[k]| ==> ('a' <= toks[k][j] <= 'z' || toks[k][j] == '\'')
    {
      assert runs[k] in Fields(s);
      assert forall j :: 0 <= j < |runs[k]| ==> WordChar(runs[k][j]);
      assert toks[k] == LowerWord(runs[k]);
    }
  }

  // ---------------------------------------------------------------------------
  // Bag of words

  /** `_bag_of_words(words)`: one 0/1 entry per vocabulary word. */
  function Bag(vocabulary: seq<string>, words: seq<string>): (r: seq<int>)
    ensures |r| == |vocabulary|
  {
    seq(|vocabulary|, k requires 0 <= k < |vocabulary| => if vocabulary[k] in words then 1 else 0)
  }

  function Sum(xs: seq<int>): int
  {
    if xs == [] then 0 else Sum(xs[..|xs| - 1]) + xs[|xs| - 1]
  }

  predicate Distinct(xs: seq<string>)
  {
    forall i, j :: 0 <= i < j < |xs| ==> xs[i] != xs[j]
  }

  /**
   * Entry `k` of the bag is 1 exactly when vocabulary word `k` occurs among the
   * words, and 0 otherwise; over a duplicate-free vocabulary the entries add up
   * to the number of distinct vocabulary words the input contains.
   */
  lemma {:induction false} BagCounts(vocabulary: seq<string>, words: seq<string>)
    requires Distinct(vocabulary)
    ensures forall k :: 0 <= k < |vocabulary| ==>
              (Bag(vocabulary, words)[k] == 1 <==> vocabulary[k] in words)
              && (Bag(vocabulary, words)[k] == 0 <==> vocabulary[k] !in words)
    ensures Sum(Bag(vocabulary, words)) == |set w | w in vocabulary && w in words|
  {
    if vocabulary != [] {
      var v := vocabulary[..|vocabulary| - 1];
      var x := vocabulary[|vocabulary| - 1];
      BagCounts(v, words);
      assert Bag(vocabulary, words)[..|v|] == Bag(v, words);
      var before := set w | w in v && w in words;
      var after := set w | w in vocabulary && w in words;
      assert x !in v;
      if x in words {
        assert after == before + {x};
      } else {
        assert after == before;
      }
    }
  }

  // ---------------------------------------------------------------------------
  // Sorted, duplicate-free vocabulary

  /** Python's `<` on strings: lexicographic by code point. */
  predicate Less(a: string, b: string)
    decreases |a|
  {
    |b| > 0 && (|a| == 0 || a[0] < b[0] || (a[0] == b[0] && Less(a[1..], b[1..])))
  }

  lemma {:induction false} LessIrreflexive(a: string)
    ensures !Less(a, a)
    decreases |a|
  {
    if |a| > 0 {
      LessIrreflexive(a[1..]);
    }
  }

  lemma {:induction false} LessTotal(a: string, b: string)
    ensures a == b || Less(a, b) || Less(b, a)
    decreases |a|
  {
    if |a| > 0 && |b| > 0 && a[0] == b[0] {
      LessTotal(a[1..], b[1..]);
      if a[1..] == b[1..] {
        assert a == [a[0]] + a[1..] && b == [b[0]] + b[1..];
      }
    }
  }

  lemma {:induction false} LessTransitive(a: string, b: string, c: string)
    requires Less(a, b) && Less(b, c)
    ensures Less(a, c)
    decreases |a|
  {
    if |a| > 0 && a[0] == b[0] && b[0] == c[0] {
      LessTransitive(a[1..], b[1..], c[1..]);
    }
  }

  lemma LessAsymmetric(a: string, b: string)
    requires Less(a, b)
    ensures !Less(b, a) && a != b
  {
    LessIrreflexive(a);
    if Less(b, a) {
      LessTransitive(a, b, a);
    }
  }

  /** Each word is smaller than the next. */
  predicate StrictlySorted(xs: seq<string>)
  {
    forall i :: 0 <= i < |xs| - 1 ==> Less(xs[i], xs[i + 1])
  }

  function Elems(xs: seq<string>): set<string>
  {
    set x | x in xs
  }

  /** Inserting into a strictly sorted list, keeping it strictly sorted and free of duplicates. */
  function Insert(xs: seq<string>, x: string): (r: seq<string>)
    requires StrictlySorted(xs)
    ensures StrictlySorted(r) && Elems(r) == Elems(xs) + {x}
    ensures r != [] && (r[0] == x || (xs != [] && r[0] == xs[0]))
  {
    if xs == [] then [x]
    else if x == xs[0] then xs
    else if Less(x, xs[0]) then [x] + xs
    else
      LessTotal(x, xs[0]);
      var r := [xs[0]] + Insert(xs[1..], x);
      assert Elems(r) == {xs[0]} + Elems(Insert(xs[1..], x));
      assert Elems(xs) == {xs[0]} + Elems(xs[1..]) by {
        assert xs == [xs[0]] + xs[1..];
      }
      r
  }

  /** `sorted(set(xs))`. */
  function SortedSet(xs: seq<string>): (r: seq<string>)
    ensures StrictlySorted(r) && Elems(r) == Elems(xs)
  {
    if xs == [] then []
    else
      var r := Insert(SortedSet(xs[..|xs| - 1]), xs[|xs| - 1]);
      assert xs == xs[..|xs| - 1] + [xs[|xs| - 1]];
      r
  }

  /** A strictly sorted list is ordered between any two positions, so it has no duplicates. */
  lemma {:induction false} SortedEverywhere(xs: seq<string>, i: nat, j: nat)
    requires StrictlySorted(xs) && i < j < |xs|
    ensures Less(xs[i], xs[j]) && xs[i] != xs[j]
    decreases j - i
  {
    if j > i + 1 {
      SortedEverywhere(xs, i + 1, j);
      LessTransitive(xs[i], xs[i + 1], xs[j]);
    }
    LessAsymmetric(xs[i], xs[j]);
  }

  lemma SortedDistinct(xs: seq<string>)
    requires StrictlySorted(xs)
    ensures Distinct(xs)
  {
    forall i, j | 0 <= i < j < |xs|
      ensures xs[i] != xs[j]
    {
      SortedEverywhere(xs, i, j);
    }
  }

  // ---------------------------------------------------------------------------
  // Intents

  /** One entry of the intents file; a missing `responses` or `patterns` key reads as empty. */
  datatype Intent = Intent(tag: Option<string>, responses: seq<string>, patterns: seq<string>)

  /** A training document: a pattern's tokens and its tag. */
  datatype Document = Document(words: seq<string>, tag: string)

  /** What `_parse_intents` builds. */
  datatype Parsed = Parsed(intents: seq<string>, responses: map<string, seq<string>>,
                           vocabulary: seq<string>, documents: seq<Document>)

  /** `if not tag: continue` skips a missing or empty tag. */
  predicate Tagged(e: Intent)
  {
    e.tag.Some? && e.tag.value != ""
  }

  /** The tokens of a list of patterns, in order. */
  function PatternWords(pats: seq<string>, nlp: Option<string -> seq<string>>): seq<string>
  {
    if pats == [] then [] else PatternWords(pats[..|pats| - 1], nlp) + Tokenize(Some(pats[|pats| - 1]), nlp)
  }

  /** One document per pattern. */
  function PatternDocs(pats: seq<string>, tag: string, nlp: Option<string -> seq<string>>): (r: seq<Document>)
    ensures |r| == |pats|
  {
    if pats == [] then []
    else PatternDocs(pats[..|pats| - 1], tag, nlp) + [Document(Tokenize(Some(pats[|pats| - 1]), nlp), tag)]
  }

  /** One pass of the loop over the intents; the vocabulary is still the unsorted word list here. */
  function AddIntent(p: Parsed, e: Intent, nlp: Option<string -> seq<string>>): Parsed
  {
    if !Tagged(e) then p
    else
      var t := e.tag.value;
      var q := if t in p.intents then p else p.(intents := p.intents + [t], responses := p.responses[t := e.responses]);
      q.(vocabulary := q.vocabulary + PatternWords(e.patterns, nlp), documents := q.documents + PatternDocs(e.patterns, t, nlp))
  }

  /** The loop after the first `k` intents. */
  function ParsePrefix(es: seq<Intent>, k: nat, nlp: Option<string -> seq<string>>): Parsed
    requires k <= |es|
  {
    if k == 0 then Parsed([], map[], [], []) else AddIntent(ParsePrefix(es, k - 1, nlp), es[k - 1], nlp)
  }

  /** `_parse_intents()`: nothing for a missing file; otherwise the loop, then `sorted(set(vocabulary))`. */
  function ParseFile(file: Option<seq<Intent>>, nlp: Option<string -> seq<string>>): Parsed
  {
    match file
    case None => Parsed([], map[], [], [])
    case Some(es) =>
      var p := ParsePrefix(es, |es|, nlp);
      p.(vocabulary := SortedSet(p.vocabulary))
  }

  /** The responses of the first tagged entry carrying `t`, a reference for the parsed map. */
  function FirstResponses(es: seq<Intent>, t: string): Option<seq<string>>
  {
    if es == [] then None
    else if Tagged(es[0]) && es[0].tag.value == t then Some(es[0].responses)
    else FirstResponses(es[1..], t)
  }

  lemma {:induction false} FirstResponsesSnoc(es: seq<Intent>, e: Intent, t: string)
    ensures FirstResponses(es + [e], t) ==
              if FirstResponses(es, t).Some? then FirstResponses(es, t)
              else if Tagged(e) && e.tag.value == t then Some(e.responses) else None
  {
    if es == [] {
      assert [e][1..] == [];
    } else {
      assert (es + [e])[0] == es[0];
      assert (es + [e])[1..] == es[1..] + [e];
      FirstResponsesSnoc(es[1..], e, t);
    }
  }

  /** How many patterns the tagged entries hold. */
  function PatternCount(es: seq<Intent>): nat
  {
    if es == [] then 0 else PatternCount(es[..|es| - 1]) + (if Tagged(es[|es| - 1]) then |es[|es| - 1].patterns| else 0)
  }

  /** The words of the patterns of the tagged entries. */
  function AllWords(es: seq<Intent>, nlp: Option<string -> seq<string>>): seq<string>
  {
    if es == [] then [] else AllWords(es[..|es| - 1], nlp) + (if Tagged(es[|es| - 1]) then PatternWords(es[|es| - 1].patterns, nlp) else [])
  }

  /**
   * What the loop has built from the entries `es`: each tag is listed once and
   * is never empty; the tags with responses are exactly the listed ones, each
   * with the responses of its first entry; there is one document per pattern
   * of every tagged entry, repeated tags included; and the word list is every
   * pattern's tokens in order.
   */
  ghost predicate ParsedFrom(p: Parsed, es: seq<Intent>, nlp: Option<string -> seq<string>>)
  {
    && Distinct(p.intents)
    && (forall t :: t in p.intents ==> t != "")
    && (forall t :: t in p.responses <==> t in p.intents)
    && (forall t :: t in p.responses <==> FirstResponses(es, t).Some?)
    && (forall t :: t in p.responses ==> FirstResponses(es, t) == Some(p.responses[t]))
    && |p.documents| == PatternCount(es)
    && p.vocabulary == AllWords(es, nlp)
  }

  /** One more intent extends what the loop has built by that entry. */
  lemma AddIntentStep(p: Parsed, es: seq<Intent>, e: Intent, nlp: Option<string -> seq<string>>)
    requires ParsedFrom(p, es, nlp)
    ensures ParsedFrom(AddIntent(p, e, nlp), es + [e], nlp)
  {
    assert (es + [e])[..|es|] == es;
    forall t
      ensures FirstResponses(es + [e], t) ==
                if FirstResponses(es, t).Some? then FirstResponses(es, t)
                else if Tagged(e) && e.tag.value == t then Some(e.responses) else None
    {
      FirstResponsesSnoc(es, e, t);
    }
  }

  /** After any number of intents the loop has built exactly what `ParsedFrom` describes from them. */
  lemma {:induction false} ParseInvariant(es: seq<Intent>, k: nat, nlp: Option<string -> seq<string>>)
    requires k <= |es|
    ensures ParsedFrom(ParsePrefix(es, k, nlp), es[..k], nlp)
  {
    if k > 0 {
      ParseInvariant(es, k - 1, nlp);
      assert es[..k] == es[..k - 1] + [es[k - 1]];
      AddIntentStep(ParsePrefix(es, k - 1, nlp), es[..k - 1], es[k - 1], nlp);
    }
  }

  /**
   * The parsed file: a missing file leaves everything empty; otherwise the
   * tags, responses and documents are as the loop left them, and the
   * vocabulary is sorted, free of duplicates and holds exactly the pattern words.
   */
  lemma ParseFileFacts(file: Option<seq<Intent>>, nlp: Option<string -> seq<string>>)
    ensures file.None? ==> ParseFile(file, nlp) == Parsed([], map[], [], [])
    ensures var p := ParseFile(file, nlp);
            && StrictlySorted(p.vocabulary) && Distinct(p.vocabulary)
            && (file.Some? ==> Elems(p.vocabulary) == Elems(AllWords(file.value, nlp)))
            && (file.Some? ==> |p.documents| == PatternCount(file.value))
  {
    var p := ParseFile(file, nlp);
    SortedDistinct(p.vocabulary);
    if file.Some? {
      var es := file.value;
      ParseInvariant(es, |es|, nlp);
      assert es[..|es|] == es;
    }
  }

  /**
   * `_parse_intents`'s loop over the intents, followed by
   * `sorted(set(vocabulary))`; nothing happens for a missing file.
   */
  method ParseIntents(file: Option<seq<Intent>>, nlp: Option<string -> seq<string>>) returns (p: Parsed)
    ensures p == ParseFile(file, nlp)
  {
    if file.None? {
      return Parsed([], map[], [], []);
    }
    var es := file.value;
    p := Parsed([], map[], [], []);
    var k := 0;
    while k < |es|
      invariant 0 <= k <= |es|
      invariant p == ParsePrefix(es, k, nlp)
    {
      p := ParseOne(p, es[k], nlp);
      k := k + 1;
    }
    p := p.(vocabulary := SortedSet(p.vocabulary));
  }

  /**
   * One intent: skip it without a tag; record the tag and its responses the
   * first time the tag appears; then tokenize every pattern into the word list
   * and the documents.
   */
  method ParseOne(p: Parsed, e: Intent, nlp: Option<string -> seq<string>>) returns (q: Parsed)
    ensures q == AddIntent(p, e, nlp)
  {
    if e.tag.None? || e.tag.value == "" {
      return p;
    }
    var tag := e.tag.value;
    var intents, responses, words, documents := p.intents, p.responses, p.vocabulary, p.documents;
    if tag !in intents {
      intents := intents + [tag];
      responses := responses[tag := e.responses];
    }
    var pWords, pDocs := TokenizePatterns(e.patterns, tag, nlp);
    words, documents := words + pWords, documents + pDocs;
    q := Parsed(intents, responses, words, documents);
  }

  /** The inner loop: each pattern's tokens join the word list, and each pattern becomes a document. */
  method TokenizePatterns(pats: seq<string>, tag: string, nlp: Option<string -> seq<string>>)
    returns (words: seq<string>, documents: seq<Document>)
    ensures words == PatternWords(pats, nlp) && documents == PatternDocs(pats, tag, nlp)
  {
    words, documents := [], [];
    var j := 0;
    while j < |pats|
      invariant 0 <= j <= |pats|
      invariant words == PatternWords(pats[..j], nlp) && documents == PatternDocs(pats[..j], tag, nlp)
    {
      var pWords := Tokenize(Some(pats[j]), nlp);
      words := words + pWords;
      documents := documents + [Document(pWords, tag)];
      assert pats[..j + 1][..j] == pats[..j];
      j := j + 1;
    }
    assert pats[..|pats|] == pats;
  }

  // ---------------------------------------------------------------------------
  // Replies

  const NotLoaded := "Sorry, my brain (model files) isn\U{2019}t loaded yet."

  function NoResponse(intent: string): string
  {
    "(No response configured for intent: " + intent + ")"
  }

  /** The start of torch's error when the bag's length is not the network's input width. */
  const ShapeMismatch := "mat1 and mat2 shapes cannot be multiplied"

  /**
   * What the assistant holds after construction: the parsed intents, and the
   * network's `input_size` from the dimensions file when the model loaded.
   */
  datatype Brain = Brain(parsed: Parsed, inputSize: Option<nat>)

  /** The guard of `reply`: no model loaded, no intents or no vocabulary. */
  predicate NotReady(b: Brain)
  {
    b.inputSize.None? || b.parsed.intents == [] || b.parsed.vocabulary == []
  }

  /**
   * `reply(text)`, given the class the network predicts for a bag-of-words
   * vector and the index `random.choice` draws (taken modulo the number of
   * responses). The network raises when the bag's length is not its
   * `input_size`; otherwise a failure is the `IndexError` of
   * `self.intents[pred_idx]`.
   */
  function ReplyFor(b: Brain, text: Option<string>, nlp: Option<string -> seq<string>>,
                    predict: seq<int> -> nat, pick: nat): Result<string>
  {
    var p := b.parsed;
    if NotReady(b) then Success(NotLoaded)
    else
      var bow := Bag(p.vocabulary, Tokenize(text, nlp));
      if |bow| != b.inputSize.value then Failure(ShapeMismatch)
      else
        var idx := predict(bow);
        if idx >= |p.intents| then Failure("list index out of range")
        else
          var intent := p.intents[idx];
          var rs := if intent in p.responses then p.responses[intent] else [];
          if rs != [] then Success(rs[pick % |rs|]) else Success(NoResponse(intent))
  }

  /**
   * The reply is the "not loaded" text whenever the model is not loaded or
   * there are no intents or no vocabulary. Otherwise it fails exactly when the
   * vocabulary's size is not the trained input size, whatever the text, or
   * the network predicts a class beyond the intents; and it is one of the
   * predicted intent's responses, or the "no response" text when it has none.
   */
  lemma ReplyCases(b: Brain, text: Option<string>, nlp: Option<string -> seq<string>>,
                   predict: seq<int> -> nat, pick: nat)
    ensures var r := ReplyFor(b, text, nlp, predict, pick);
            var p := b.parsed;
            var idx := predict(Bag(p.vocabulary, Tokenize(text, nlp)));
            && (NotReady(b) ==> r == Success(NotLoaded))
            && (!NotReady(b) && |p.vocabulary| != b.inputSize.value ==>
                  r == Failure(ShapeMismatch))
            && (!NotReady(b) && |p.vocabulary| == b.inputSize.value ==>
                  (r.Failure? <==> idx >= |p.intents|))
            && (!NotReady(b) && |p.vocabulary| == b.inputSize.value && idx < |p.intents| ==>
                  var intent := p.intents[idx];
                  (intent in p.responses && p.responses[intent] != [] && r.value in p.responses[intent])
                  || ((intent !in p.responses || p.responses[intent] == []) && r.value == NoResponse(intent)))
  {
  }

  class ChatbotAssistant {
    /** The NLTK tokenisation, when NLTK imported. */
    const nlp: Option<string -> seq<string>>
    var intents: seq<string>
    var responses: map<string, seq<string>>
    var vocabulary: seq<string>
    var documents: seq<Document>
    /** `input_size` of the loaded network, None while `_loaded_ok` is false. */
    var inputSize: Option<nat>

    function View(): Brain
      reads this
    {
      Brain(Parsed(intents, responses, vocabulary, documents), inputSize)
    }

    /**
     * `__init__`: parse the intents file, then load the model when both the
     * model and the dimensions file exist; `dims` is the `input_size` the
     * dimensions file holds, None when either file is missing.
     */
    constructor (file: Option<seq<Intent>>, dims: Option<nat>, nlp: Option<string -> seq<string>>)
      ensures this.nlp == nlp
      ensures View() == Brain(ParseFile(file, nlp), dims)
    {
      this.nlp := nlp;
      var p := ParseIntents(file, nlp);
      intents, responses, vocabulary, documents := p.intents, p.responses, p.vocabulary, p.documents;
      inputSize := dims;
    }

    method Reply(text: Option<string>, predict: seq<int> -> nat, pick: nat) returns (r: Result<string>)
      ensures r == ReplyFor(View(), text, nlp, predict, pick)
    {
      if inputSize.None? || intents == [] || vocabulary == [] {
        return Success(NotLoaded);
      }
      var words := Tokenize(text, nlp);
      var bow := Bag(vocabulary, words);
      if |bow| != inputSize.value {
        return Failure(ShapeMismatch);
      }
      var idx := predict(bow);
      if idx >= |intents| {
        return Failure("list index out of range");
      }
      var intent := intents[idx];
      var rs := if intent in responses then responses[intent] else [];
      if rs != [] {
        r := Success(rs[pick % |rs|]);
      } else {
        r := Success(NoResponse(intent));
      }
    }
  }
}
