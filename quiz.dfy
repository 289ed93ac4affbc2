/**
 * Multiple-choice questions in `HybridAI`: reading the question list out of
 * a reply, the filter that keeps only well-formed questions, the offline
 * question builder used when the reply cannot be read, and the sampler that
 * picks the text the questions are asked about.
 *
 * `json.loads` is a parameter (`Parser`); the random choices of the offline
 * builder are parameters too (`Draw`).
 */
module Quiz {
  import opened Wrappers
  import opened Text
  import Patterns

  // ---------------------------------------------------------------------
  // JSON values and the Python operations the filter applies to them
  // ---------------------------------------------------------------------

  /** A value `json.loads` can return (numbers are modelled as integers). */
  datatype Json =
    | JNull
    | JBool(b: bool)
    | JNum(n: int)
    | JStr(s: string)
    | JArr(items: seq<Json>)
    | JObj(fields: map<string, Json>)

  /** `json.loads`: the value a text decodes to, or `None` for a `JSONDecodeError`. */
  type Parser = string -> Option<Json>

  /** `len(v)`; `None` when Python raises `TypeError`. */
  function PyLen(v: Json): Option<nat> {
    match v
    case JStr(s) => Some(|s|)
    case JArr(a) => Some(|a|)
    case JObj(m) => Some(|m.Keys|)
    case _ => None
  }

  /** The number a value stands for under `==`: `bool` is a subtype of `int` in Python. */
  function NumberOf(v: Json): Option<int> {
    match v
    case JBool(b) => Some(if b then 1 else 0)
    case JNum(n) => Some(n)
    case _ => None
  }

  /**
   * Python's `==` on decoded values: `True == 1` and `False == 0`, lists are
   * equal item by item and objects key by key.
   */
  predicate PyEq(a: Json, b: Json)
    decreases a
  {
    match a
    case JNull => b.JNull?
    case JBool(_) => NumberOf(b) == NumberOf(a)
    case JNum(_) => NumberOf(b) == NumberOf(a)
    case JStr(s) => b == JStr(s)
    case JArr(xs) => b.JArr? && |xs| == |b.items| && forall i :: 0 <= i < |xs| ==> PyEq(xs[i], b.items[i])
    case JObj(m) => b.JObj? && m.Keys == b.fields.Keys && forall k :: k in m ==> PyEq(m[k], b.fields[k])
  }

  /** `x in xs` for a list: some item is `==` to `x`. */
  predicate Among(x: Json, xs: seq<Json>) {
    exists i :: 0 <= i < |xs| && PyEq(x, xs[i])
  }

  /**
   * `x in v`: membership in a list, a substring test in a string, a key test
   * in an object; `None` when Python raises `TypeError`.
   */
  function PyIn(x: Json, v: Json): Option<bool> {
    match v
    case JArr(a) => Some(Among(x, a))
    case JStr(s) => if x.JStr? then Some(Contains(s, x.s)) else None
    case JObj(m) => if x.JArr? || x.JObj? then None else Some(x.JStr? && x.s in m)
    case _ => None
  }

  /**
   * The test `generate_mcqs` applies to each parsed item: an object with
   * `question`, `options` and `answer` whose options have length 4 and hold
   * the answer. `None` when the test itself raises.
   */
  function McqCheck(q: Json): (r: Option<bool>)
    ensures r == Some(true) ==>
      && q.JObj? && "question" in q.fields && "options" in q.fields && "answer" in q.fields
      && PyLen(q.fields["options"]) == Some(4)
      && PyIn(q.fields["answer"], q.fields["options"]) == Some(true)
  {
    if q.JObj? && "question" in q.fields && "options" in q.fields && "answer" in q.fields then
      var options := q.fields["options"];
      match PyLen(options)
      case None => None
      case Some(n) => if n != 4 then Some(false) else PyIn(q.fields["answer"], options)
    else Some(false)
  }

  /** A question whose options are a list of four values, one of them the answer. */
  predicate ListMcq(q: Json) {
    && q.JObj? && "question" in q.fields && "options" in q.fields && "answer" in q.fields
    && q.fields["options"].JArr? && |q.fields["options"].items| == 4
    && Among(q.fields["answer"], q.fields["options"].items)
  }

  /** For options given as a list, the test passes exactly for the well-formed questions. */
  lemma McqCheckOfList(q: Json)
    requires q.JObj? && "options" in q.fields && q.fields["options"].JArr?
    ensures McqCheck(q) == Some(true) <==> ListMcq(q)
    ensures McqCheck(q).Some?
  {
  }

  /** The test compares with Python's `==`: the answer `true` is among the options `[1, "b", "c", "d"]`. */
  lemma BoolAnswerMatchesNumber()
    ensures McqCheck(JObj(map["question" := JStr("q"), "options" := JArr([JNum(1), JStr("b"), JStr("c"), JStr("d")]),
                              "answer" := JBool(true)])) == Some(true)
  {
    var options := [JNum(1), JStr("b"), JStr("c"), JStr("d")];
    assert PyEq(JBool(true), options[0]);
  }

  /** The `valid_questions` loop: the items that pass, in order; `None` when the test raises on an item. */
  function Validate(items: seq<Json>): (r: Option<seq<Json>>)
    decreases |items|
  {
    if items == [] then Some([])
    else
      match McqCheck(items[0])
      case None => None
      case Some(keep) =>
        match Validate(items[1..])
        case None => None
        case Some(rest) => Some(if keep then [items[0]] + rest else rest)
  }

  /** `a` is `b` with some items left out. */
  predicate SubsequenceOf(a: seq<Json>, b: seq<Json>)
    decreases |b|
  {
    if a == [] then true
    else if b == [] then false
    else (a[0] == b[0] && SubsequenceOf(a[1..], b[1..])) || SubsequenceOf(a, b[1..])
  }

  /** Every kept question passes the test, and the kept ones keep their order. */
  lemma {:induction false} ValidateSound(items: seq<Json>)
    requires Validate(items).Some?
    ensures forall k :: 0 <= k < |Validate(items).value| ==> McqCheck(Validate(items).value[k]) == Some(true)
    ensures SubsequenceOf(Validate(items).value, items)
    decreases |items|
  {
    if items != [] {
      ValidateSound(items[1..]);
      var rest := Validate(items[1..]).value;
      var r := Validate(items).value;
      if McqCheck(items[0]) == Some(true) {
        assert r == [items[0]] + rest && r[1..] == rest;
        forall k | 0 <= k < |r| ensures McqCheck(r[k]) == Some(true) {
          if k > 0 {
            assert r[k] == rest[k - 1];
          }
        }
      }
    }
  }

  /** No item that passes the test is dropped. */
  lemma {:induction false} ValidateComplete(items: seq<Json>, i: nat)
    requires Validate(items).Some? && i < |items| && McqCheck(items[i]) == Some(true)
    ensures items[i] in Validate(items).value
    decreases |items|
  {
    if i > 0 {
      assert items[1..][i - 1] == items[i];
      ValidateComplete(items[1..], i - 1);
    }
  }

  /** The filter raises exactly when the test raises on some item. */
  lemma {:induction false} ValidateRaises(items: seq<Json>)
    ensures Validate(items).None? <==> exists i :: 0 <= i < |items| && McqCheck(items[i]).None?
    decreases |items|
  {
    if items != [] {
      ValidateRaises(items[1..]);
      if exists i :: 0 <= i < |items[1..]| && McqCheck(items[1..][i]).None? {
        var i :| 0 <= i < |items[1..]| && McqCheck(items[1..][i]).None?;
        assert McqCheck(items[i + 1]).None?;
      }
      if exists i :: 0 <= i < |items| && McqCheck(items[i]).None? {
        var i :| 0 <= i < |items| && McqCheck(items[i]).None?;
        if i > 0 {
          assert McqCheck(items[1..][i - 1]).None?;
        }
      }
    }
  }

  /** What `for q in questions` iterates over: the items of a list; nothing that can pass for a string or an object; `None` when the value is not iterable. */
  function Elements(doc: Json): Option<seq<Json>> {
    match doc
    case JArr(a) => Some(a)
    case JStr(_) => Some([])
    case JObj(_) => Some([])
    case _ => None
  }

  /**
   * The parsing part of `generate_mcqs`: cut the reply from its first `[` to
   * just past its last `]`, decode it, filter the questions and keep the
   * first `count`. `None` means the offline questions are used instead.
   */
  function ParseReply(reply: string, parse: Parser, count: nat): (r: Option<seq<Json>>)
  {
    match FindChar(reply, '[')
    case None => None
    case Some(start) =>
      var end := match RFindChar(reply, ']') case None => 0 case Some(j) => j + 1;
      match parse(PySlice(reply, start, end))
      case None => None
      case Some(doc) =>
        match Elements(doc)
        case None => None
        case Some(items) =>
          match Validate(items)
          case None => None
          case Some(valid) => Some(valid[..Min(count, |valid|)])
  }

  /**
   * A read reply holds at most `count` questions, each of which passes the
   * test, in the order the reply gave them.
   */
  lemma ParseReplySound(reply: string, parse: Parser, count: nat)
    requires ParseReply(reply, parse, count).Some?
    ensures |ParseReply(reply, parse, count).value| <= count
    ensures forall k :: 0 <= k < |ParseReply(reply, parse, count).value| ==>
      McqCheck(ParseReply(reply, parse, count).value[k]) == Some(true)
  {
    var start := FindChar(reply, '[').value;
    var end := match RFindChar(reply, ']') case None => 0 case Some(j) => j + 1;
    var items := Elements(parse(PySlice(reply, start, end)).value).value;
    ValidateSound(items);
  }

  /**
   * A reply without `[`, or without `]` (the cut is then empty, which
   * `json.loads` rejects), leads to the offline questions.
   */
  lemma MissingBracketFallsBack(reply: string, parse: Parser, count: nat)
    requires parse("") == None
    requires '[' !in reply || ']' !in reply
    ensures ParseReply(reply, parse, count) == None
  {
  }

  // ---------------------------------------------------------------------
  // The offline questions
  // ---------------------------------------------------------------------

  /** `[s.strip() for s in pieces if len(s.strip()) > 20]` */
  function LongSentences(pieces: seq<string>): (r: seq<string>)
    ensures |r| <= |pieces|
    decreases |pieces|
  {
    if pieces == [] then []
    else
      var s := Strip(pieces[0]);
      (if |s| > 20 then [s] else []) + LongSentences(pieces[1..])
  }

  /** Every sentence kept is longer than 20 characters. */
  lemma {:induction false} LongSentencesLong(pieces: seq<string>)
    ensures forall k :: 0 <= k < |LongSentences(pieces)| ==> |LongSentences(pieces)[k]| > 20
    decreases |pieces|
  {
    if pieces != [] {
      LongSentencesLong(pieces[1..]);
      var rest := LongSentences(pieces[1..]);
      var r := LongSentences(pieces);
      forall k | 0 <= k < |r| ensures |r[k]| > 20 {
        if |Strip(pieces[0])| > 20 && k > 0 {
          assert r[k] == rest[k - 1];
        }
      }
    }
  }

  /** The sentences the offline questions are made from. */
  function Sentences(text: string): seq<string> {
    LongSentences(Split(text, "."))
  }

  /** The length of the run of ASCII letters `s` begins with. */
  function Letters(s: string): (n: nat)
    ensures n <= |s|
    decreases |s|
  {
    if s != [] && IsLetter(s[0]) then 1 + Letters(s[1..]) else 0
  }

  /** Where a term that begins at `p` ends: the capital and the letters after it. */
  function TermEnd(text: string, p: nat): (e: nat)
    requires p < |text|
    ensures p < e <= |text|
  {
    p + 1 + Letters(text[p + 1..])
  }

  /**
   * `\b[A-Z][a-zA-Z]+\b` matches at `p`: a capital that does not continue a
   * word, at least one more letter, and no word character right after the
   * letters (giving letters back cannot create a word boundary).
   */
  predicate TermAt(text: string, p: nat) {
    && p < |text|
    && (p == 0 || !IsWordChar(text[p - 1]))
    && IsUpper(text[p])
    && var e := TermEnd(text, p);
       e > p + 1 && (e == |text| || !IsWordChar(text[e]))
  }

  /**
   * `re.findall(r'\b[A-Z][a-zA-Z]+\b', text)`. A match cannot start inside
   * another one (a letter precedes it there), so the scan finds a match at
   * every position where the pattern matches.
   */
  function Terms(text: string): (r: seq<string>)
    ensures forall k :: 0 <= k < |r| ==> |r[k]| >= 2
  {
    var flags := seq(|text|, p requires 0 <= p < |text| => TermAt(text, p));
    var ps := Patterns.Positions(flags, 0);
    seq(|ps|, k requires 0 <= k < |ps| => text[ps[k]..TermEnd(text, ps[k])])
  }

  /** The first occurrence of every item, in order. */
  function Dedup(xs: seq<string>): (r: seq<string>)
    ensures Distinct(r)
    ensures forall x :: x in r <==> x in xs
    decreases |xs|
  {
    if xs == [] then []
    else
      var r := Dedup(xs[..|xs| - 1]);
      var x := xs[|xs| - 1];
      assert xs == xs[..|xs| - 1] + [x];
      if x in r then r else r + [x]
  }

  /**
   * `list(set(re.findall(...)))`. Python lists a set in an order fixed by
   * hashing; the model keeps the first occurrences in text order, and the
   * draws below can pick any term whatever the order.
   */
  function KeyTermsOf(text: string): (r: seq<string>)
    ensures Distinct(r)
    ensures forall k :: 0 <= k < |r| ==> |r[k]| >= 2
  {
    var terms := Terms(text);
    var r := Dedup(terms);
    assert forall k :: 0 <= k < |r| ==> r[k] in terms;
    r
  }

  /** No item occurs twice. */
  predicate Distinct<T(==)>(xs: seq<T>) {
    forall i, j :: 0 <= i < j < |xs| ==> xs[i] != xs[j]
  }

  /** `[t for t in terms if t != answer]` */
  function Without<T(==,!new)>(xs: seq<T>, a: T): (r: seq<T>)
    ensures forall x :: x in r <==> x in xs && x != a
    ensures a !in xs ==> r == xs
    ensures Distinct(xs) ==> Distinct(r)
    ensures Distinct(xs) && a in xs ==> |r| == |xs| - 1
    decreases |xs|
  {
    if xs == [] then []
    else
      var rest := Without(xs[1..], a);
      assert Distinct(xs) ==> Distinct(xs[1..]) && xs[0] !in xs[1..];
      assert xs == [xs[0]] + xs[1..];
      if xs[0] == a then rest else [xs[0]] + rest
  }

  /** The random choices made for one question: `random.choice`, `random.sample` and `random.shuffle`. */
  datatype Draw = Draw(pick: nat, sample: seq<nat>, shuffle: seq<nat>)

  /**
   * `k` different items drawn one after another from `pool`, each index taken
   * modulo what is left: `random.sample(pool, k)`, and with `k == |pool|`
   * `random.shuffle`. Every outcome of the library calls is some choice of indices.
   */
  function Choose<T>(pool: seq<T>, idx: seq<nat>, k: nat): (r: seq<T>)
    requires k <= |pool|
    ensures |r| == k
    decreases k
  {
    if k == 0 then [] else
      var j := Next(idx) % |pool|;
      [pool[j]] + Choose(Drop(pool, j), Rest(idx), k - 1)
  }

  /** One draw. */
  lemma ChooseStep<T>(pool: seq<T>, idx: seq<nat>, k: nat)
    requires 0 < k <= |pool|
    ensures var j := Next(idx) % |pool|;
      Choose(pool, idx, k) == [pool[j]] + Choose(Drop(pool, j), Rest(idx), k - 1)
  {
  }

  /** The index the next draw uses (0 once the recorded draws run out). */
  function Next(idx: seq<nat>): nat {
    if idx == [] then 0 else idx[0]
  }

  function Rest(idx: seq<nat>): seq<nat> {
    if idx == [] then [] else idx[1..]
  }

  /** The pool without its `j`-th item. */
  function Drop<T>(pool: seq<T>, j: nat): (r: seq<T>)
    requires j < |pool|
    ensures |r| == |pool| - 1
  {
    pool[..j] + pool[j + 1..]
  }

  /** Drawing from a pool without repeats leaves one without repeats, and without the item drawn. */
  lemma RemoveAtDistinct<T>(pool: seq<T>, j: nat)
    requires j < |pool| && Distinct(pool)
    ensures Distinct(Drop(pool, j)) && pool[j] !in Drop(pool, j)
  {
    var rest := Drop(pool, j);
    forall a | 0 <= a < |rest| ensures rest[a] == pool[if a < j then a else a + 1] {
    }
  }

  /** Every item drawn comes from the pool. */
  lemma {:induction false} ChooseFrom<T(!new)>(pool: seq<T>, idx: seq<nat>, k: nat)
    requires k <= |pool|
    ensures forall x :: x in Choose(pool, idx, k) ==> x in pool
    decreases k
  {
    if k > 0 {
      var j := Next(idx) % |pool|;
      var rest := Drop(pool, j);
      ChooseFrom(rest, Rest(idx), k - 1);
      assert forall x :: x in rest ==> x in pool;
    }
  }

  /** Items drawn from a pool without repeats are all different. */
  lemma {:induction false} ChooseDistinct<T(!new)>(pool: seq<T>, idx: seq<nat>, k: nat)
    requires k <= |pool| && Distinct(pool)
    ensures Distinct(Choose(pool, idx, k))
    decreases k
  {
    if k > 0 {
      var j := Next(idx) % |pool|;
      var rest := Drop(pool, j);
      var idx' := Rest(idx);
      RemoveAtDistinct(pool, j);
      ChooseDistinct(rest, idx', k - 1);
      ChooseFrom(rest, idx', k - 1);
      var r := Choose(pool, idx, k);
      var tail := Choose(rest, idx', k - 1);
      assert r == [pool[j]] + tail;
      forall a, b | 0 <= a < b < |r| ensures r[a] != r[b] {
        assert r[b] == tail[b - 1];
        if a > 0 {
          assert r[a] == tail[a - 1];
        }
      }
    }
  }

  /** Drawing every item of the pool draws each of them. */
  lemma {:induction false} ChooseAllMember<T>(pool: seq<T>, idx: seq<nat>, i: nat)
    requires i < |pool|
    ensures pool[i] in Choose(pool, idx, |pool|)
    decreases |pool|
  {
    var j := Next(idx) % |pool|;
    ChooseStep(pool, idx, |pool|);
    if i != j {
      var i' := if i < j then i else i - 1;
      assert Drop(pool, j)[i'] == pool[i];
      ChooseAllMember(Drop(pool, j), Rest(idx), i');
    }
  }

  lemma AppendDistinct<T>(xs: seq<T>, a: T)
    requires Distinct(xs) && a !in xs
    ensures Distinct(xs + [a])
  {
    var all := xs + [a];
    forall i, j | 0 <= i < j < |all| ensures all[i] != all[j] {
      assert all[i] == xs[i];
      if j < |xs| {
        assert all[j] == xs[j];
      }
    }
  }

  /** An offline question: the sentence with a term blanked out, and options. */
  datatype Mcq = Mcq(question: string, options: seq<string>, answer: string)

  /**
   * The options of an offline question: up to three distractors drawn from
   * the other terms, and the answer, all shuffled together.
   */
  function Options<T(==,!new)>(answer: T, pool: seq<T>, d: Draw): (options: seq<T>)
    requires Distinct(pool) && answer !in pool
    ensures answer in options && Distinct(options)
    ensures |options| == Min(3, |pool|) + 1
    ensures forall o :: o in options ==> o == answer || o in pool
  {
    var distractors := Choose(pool, d.sample, Min(3, |pool|));
    ChooseDistinct(pool, d.sample, Min(3, |pool|));
    ChooseFrom(pool, d.sample, Min(3, |pool|));
    var all := distractors + [answer];
    AppendDistinct(distractors, answer);
    var options := Choose(all, d.shuffle, |all|);
    ChooseDistinct(all, d.shuffle, |all|);
    ChooseFrom(all, d.shuffle, |all|);
    ChooseAllMember(all, d.shuffle, |all| - 1);
    options
  }

  /**
   * One offline question: the drawn term as answer, up to three other terms
   * as distractors, all of them shuffled. The options hold the answer, are all
   * different, and number four only when there are at least four terms.
   */
  function FallbackQuestion(sentence: string, terms: seq<string>, d: Draw): (q: Mcq)
    requires terms != [] && Distinct(terms)
    requires forall k :: 0 <= k < |terms| ==> terms[k] != ""
    ensures q.answer in terms && q.answer in q.options
    ensures Distinct(q.options) && |q.options| == Min(4, |terms|)
    ensures forall o :: o in q.options ==> o in terms
  {
    var answer := terms[d.pick % |terms|];
    var options := Options(answer, Without(terms, answer), d);
    Mcq("Fill in the blank: " + Replace(sentence, answer, "_____"), options, answer)
  }

  /** The question a well-formed offline question satisfies. */
  predicate WellFormed(q: Mcq, terms: seq<string>) {
    q.answer in q.options && Distinct(q.options) && |q.options| <= 4 && forall o :: o in q.options ==> o in terms
  }

  /** The offline questions for the first `n` sentences. */
  function Questions(sentences: seq<string>, terms: seq<string>, n: nat, draws: nat -> Draw): (qs: seq<Mcq>)
    requires n <= |sentences| && terms != [] && Distinct(terms)
    requires forall k :: 0 <= k < |terms| ==> terms[k] != ""
    ensures |qs| == n
    decreases n
  {
    if n == 0 then []
    else Questions(sentences, terms, n - 1, draws) + [FallbackQuestion(sentences[n - 1], terms, draws(n - 1))]
  }

  /** The `k`-th question is made from the `k`-th sentence with the `k`-th draw. */
  lemma {:induction false} QuestionsAt(sentences: seq<string>, terms: seq<string>, n: nat, draws: nat -> Draw, k: nat)
    requires n <= |sentences| && terms != [] && Distinct(terms)
    requires forall k :: 0 <= k < |terms| ==> terms[k] != ""
    requires k < n
    ensures Questions(sentences, terms, n, draws)[k] == FallbackQuestion(sentences[k], terms, draws(k))
    decreases n
  {
    var prefix := Questions(sentences, terms, n - 1, draws);
    var last := FallbackQuestion(sentences[n - 1], terms, draws(n - 1));
    SnocAt(prefix, last, k);
    if k < n - 1 {
      QuestionsAt(sentences, terms, n - 1, draws, k);
    }
  }

  lemma SnocAt<T>(xs: seq<T>, x: T, k: nat)
    requires k <= |xs|
    ensures (xs + [x])[k] == if k < |xs| then xs[k] else x
  {
  }

  /**
   * `_create_fallback_mcqs(text, count)`: one question for each of the first
   * `min(count, #sentences)` sentences, none at all when the text has no term.
   */
  function FallbackMcqs(text: string, count: nat, draws: nat -> Draw): (qs: seq<Mcq>)
    ensures |qs| <= Min(count, |Sentences(text)|)
    ensures KeyTermsOf(text) != [] ==> |qs| == Min(count, |Sentences(text)|)
  {
    var terms := KeyTermsOf(text);
    if terms == [] then [] else Questions(Sentences(text), terms, Min(count, |Sentences(text)|), draws)
  }

  /**
   * Every offline question has its answer among its options, all of them
   * different terms of the text, at most four of them.
   */
  lemma FallbackMcqsWellFormed(text: string, count: nat, draws: nat -> Draw, k: nat)
    requires k < |FallbackMcqs(text, count, draws)|
    ensures WellFormed(FallbackMcqs(text, count, draws)[k], KeyTermsOf(text))
  {
    var sentences, terms := Sentences(text), KeyTermsOf(text);
    QuestionsAt(sentences, terms, Min(count, |sentences|), draws, k);
    var q := FallbackQuestion(sentences[k], terms, draws(k));
    assert WellFormed(q, terms);
  }

  /** The loop of `_create_fallback_mcqs` over the first `n` sentences. */
  method BuildQuestions(sentences: seq<string>, terms: seq<string>, n: nat, draws: nat -> Draw) returns (questions: seq<Mcq>)
    requires n <= |sentences| && terms != [] && Distinct(terms)
    requires forall k :: 0 <= k < |terms| ==> terms[k] != ""
    ensures questions == Questions(sentences, terms, n, draws)
  {
    questions := [];
    for i := 0 to n
      invariant questions == Questions(sentences, terms, i, draws)
    {
      questions := questions + [FallbackQuestion(sentences[i], terms, draws(i))];
    }
  }

  /** `_create_fallback_mcqs`: no question at all when the text has no term. */
  method CreateFallbackMcqs(text: string, count: nat, draws: nat -> Draw) returns (questions: seq<Mcq>)
    ensures questions == FallbackMcqs(text, count, draws)
  {
    var sentences := Sentences(text);
    var terms := KeyTermsOf(text);
    if terms == [] {
      return [];
    }
    questions := BuildQuestions(sentences, terms, Min(count, |sentences|), draws);
  }

  /** An offline question in the shape `generate_mcqs` returns. */
  function McqJson(q: Mcq): (j: Json)
    ensures j.JObj? && j.fields.Keys == {"question", "options", "answer"}
  {
    var options := seq(|q.options|, k requires 0 <= k < |q.options| => JStr(q.options[k]));
    JObj(map["question" := JStr(q.question), "options" := JArr(options), "answer" := JStr(q.answer)])
  }

  /** An offline question with four options would pass the filter applied to the service's questions. */
  lemma FallbackPassesCheck(q: Mcq)
    requires |q.options| == 4 && q.answer in q.options
    ensures McqCheck(McqJson(q)) == Some(true)
  {
    var j := McqJson(q);
    var i :| 0 <= i < |q.options| && q.options[i] == q.answer;
    assert j.fields["options"].items[i] == JStr(q.answer);
  }

  // ---------------------------------------------------------------------
  // Sampling the text for the questions
  // ---------------------------------------------------------------------

  /** `xs[::step]` */
  function Every(xs: seq<string>, step: nat): (r: seq<string>)
    requires step > 0
    ensures |r| <= |xs|
    ensures forall x :: x in r ==> x in xs
    decreases |xs|
  {
    if xs == [] then []
    else
      var rest := xs[Min(step, |xs|)..];
      assert forall x :: x in rest ==> x in xs;
      [xs[0]] + Every(rest, step)
  }

  /** `xs[::max(1, len(xs) // (sample_size // 2))]` */
  function Spread(xs: seq<string>, half: nat): (r: seq<string>)
    requires half > 0
    ensures forall x :: x in r ==> x in xs
  {
    var step := |xs| / half;
    Every(xs, if step >= 1 then step else 1)
  }

  /**
   * The paragraphs the sampler takes for a text of more than three: every
   * few paragraphs of the middle third after the skipped front matter, and of
   * the rest when the middle gives less than half the budget.
   */
  function SampledParagraphs(paragraphs: seq<string>, maxChars: nat): (r: seq<string>)
    requires maxChars >= 400 && |paragraphs| > 3
    ensures forall x :: x in r ==> x in paragraphs
  {
    var total := |paragraphs|;
    var skip := Min(5, total / 4);
    var half := maxChars / 200 / 2;
    var middleStart := skip + (total - skip) / 3;
    var middleEnd := skip + 2 * (total - skip) / 3;
    var middle := paragraphs[middleStart..middleEnd];
    var later := paragraphs[middleEnd..];
    var fromMiddle := if middle != [] then Spread(middle, half) else [];
    if |Join(fromMiddle, " ")| < maxChars / 2 && later != [] then fromMiddle + Spread(later, half)
    else fromMiddle
  }

  /** A text of three paragraphs or fewer: `max_chars` characters from a quarter of the way in. */
  function ShortSample(text: string, maxChars: nat): (r: string)
    ensures |r| <= maxChars
    ensures Contains(text, r)
  {
    var start := |text| / 4;
    var r := PySlice(text, start, start + maxChars);
    var end := Min(start + maxChars, |text|);
    assert r == text[start..end];
    ContainsSlice(text, start, end);
    r
  }

  /**
   * A longer text: the sampled paragraphs, preceded by three paragraphs from
   * after the front matter when they give less than half the budget, cut to
   * `max_chars` plus an ellipsis.
   */
  function LongSample(paragraphs: seq<string>, maxChars: nat): (r: string)
    requires maxChars >= 400 && |paragraphs| > 3
    ensures |r| <= maxChars + 3
  {
    var skip := Min(5, |paragraphs| / 4);
    var joined := Join(SampledParagraphs(paragraphs, maxChars), "\n\n");
    var sampled := if |joined| < maxChars / 2 then Join(paragraphs[skip..skip + 3], "\n\n") + "\n\n" + joined else joined;
    Truncate(sampled, maxChars)
  }

  /**
   * `_sample_text_for_mcqs(text, max_chars)`. `max_chars` must be at least
   * 400: below that `sample_size // 2` is zero and the step divides by it.
   */
  function SampleText(text: string, maxChars: nat): string
    requires maxChars >= 400
  {
    var paragraphs := KeepNonBlank(Split(text, "\n\n"));
    if |paragraphs| <= 3 then ShortSample(text, maxChars) else LongSample(paragraphs, maxChars)
  }

  /**
   * The sample is at most three characters over the budget (the ellipsis);
   * for three paragraphs or fewer it is a piece of the text within the budget.
   */
  lemma SampleTextBound(text: string, maxChars: nat)
    requires maxChars >= 400
    ensures |SampleText(text, maxChars)| <= maxChars + 3
    ensures |KeepNonBlank(Split(text, "\n\n"))| <= 3 ==>
      |SampleText(text, maxChars)| <= maxChars && Contains(text, SampleText(text, maxChars))
  {
  }
}
