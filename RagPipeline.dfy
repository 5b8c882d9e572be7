/** The query pipeline of `backend/services/rag_pipeline.py`: intent
    analysis by the language model, a process-wide answer cache, search with
    several query variants, and the choice between a grounded answer and a
    "no information" answer. The language model, the embedding endpoint,
    the vector search and `json.loads` are oracles. */
module RagPipeline {
  import opened Common
  import opened JsonValue
  import opened Embeddings
  import opened Providers
  import opened Retrieval

  /** Matches requested per query variant. */
  const TopK: nat := 5

  /** What `query_vectors` did: raised, or returned these `matches`
      (`results.get('matches', [])`). */
  datatype SearchReply = SearchRaised | SearchOk(matches: seq<Match>)

  /** The remote services besides the language model. */
  datatype Services = Services(
    /** `json.loads` applied to a text that begins with `{` and ends with
        `}`: the members of the object, or None when it raises */
    parseObject: string -> Option<seq<Member>>,
    /** the embedding endpoint, attempt by attempt */
    embedHttp: Http,
    /** `query_vectors(vector, top_k, filter)`; the filter is the document name */
    search: (seq<Json>, nat, Option<string>) -> SearchReply)

  /** The dict `process_query` returns. `list(set)` has no fixed order, so
      the sources are kept as a set. */
  datatype QueryResult = QueryResult(answer: string, sources: set<string>)

  /** A returned result, or the `TypeError` Python raises when the intent's
      `queries` entry cannot be iterated (a number, a boolean or null). */
  datatype Outcome = Returned(result: QueryResult) | RaisedTypeError

  /** The calls made to remote services, in order. A prompt is recorded
      by what it is built from (see `Prompt`). */
  datatype Call = Generate(prompt: Prompt) | Embed(input: Json) | Search(vector: seq<Json>, filter: Option<string>)

  /** The outcome of one `process_query` call, its remote calls and the cache after it. */
  datatype Step = Step(outcome: Outcome, calls: seq<Call>, cache: map<string, QueryResult>)

  // ---------------------------------------------------------------------
  // Cache key

  /** `current_document or default` */
  function DocumentOr(doc: Option<string>, default: string): string {
    if doc.Some? && doc.value != "" then doc.value else default
  }

  /** `f"{question.strip().lower()}|{current_document or 'global'}"`: the
      key ends with `|` and the document part; what comes before has no
      upper-case letter and no surrounding whitespace. */
  function CacheKey(question: string, doc: Option<string>): (key: string)
    ensures var d := DocumentOr(doc, "global");
      var n := |key| - |d| - 1;
      0 <= n && key[n] == '|' && key[n + 1..] == d
      && (forall i :: 0 <= i < n ==> !('A' <= key[i] <= 'Z'))
      && (n > 0 ==> !IsSpace(key[0]) && !IsSpace(key[n - 1]))
  {
    var q := Lower(Strip(question));
    StripLowerEnds(question);
    var key := q + "|" + DocumentOr(doc, "global");
    assert key[..|q|] == q && key[|q| + 1..] == DocumentOr(doc, "global");
    key
  }

  /** Questions that differ only in outer whitespace share a cache key. */
  lemma CacheKeyIgnoresOuterSpace(w1: string, question: string, w2: string, doc: Option<string>)
    requires AllSpace(w1) && AllSpace(w2)
    ensures CacheKey(w1 + question + w2, doc) == CacheKey(question, doc)
  {
    StripIgnoresOuterSpace(w1, question, w2);
  }

  /** Questions that differ only in letter case share a cache key. */
  lemma CacheKeyIgnoresCase(question: string, doc: Option<string>)
    ensures CacheKey(Lower(question), doc) == CacheKey(question, doc)
  {
    var t := Strip(question);
    StripLowerCommute(question);
    assert Strip(Lower(question)) == Lower(t);
    LowerIdempotent(t);
  }

  /** The key does not tell an empty document name, no document and a
      document named "global" apart. */
  lemma CacheKeyDocumentCollisions(question: string)
    ensures CacheKey(question, Some("")) == CacheKey(question, None) == CacheKey(question, Some("global"))
  {
  }

  /** A `|` in the question can mimic a document name. */
  lemma CacheKeyQuestionCollision()
    ensures CacheKey("a|b", None) == CacheKey("a", Some("b|global"))
  {
  }

  // ---------------------------------------------------------------------
  // Prompts

  const IntentJsonStructure: string :=
    "{\"is_generic\": true/false, \"is_current_file\": true/false, \"queries\": [\"string1\", \"string2\", \"string3\"]}"

  /** The instructions that follow the question and the document name. */
  const IntentInstructions: string :=
    "\n\n"
    + "1. Is this 'GENERIC' (chatting/greetings)?\n"
    + "2. Is the user referring to 'this file' or 'current document'?\n"
    + "3. If NOT generic, generate 3 different search variations of the question to improve retrieval coverage. "
    + "Keep them short and focused on key entities.\n\n"
    + "Respond ONLY with a JSON object: " + IntentJsonStructure + "."

  function IntentPrompt(question: string, doc: Option<string>): string {
    "Analyze the user's question: '" + question + "'\n"
    + "Active document: " + DocumentOr(doc, "None") + IntentInstructions
  }

  function GenericPrompt(question: string): string {
    "Answer helpfully: '" + question + "'"
  }

  function NoInfoPrompt(question: string): string {
    "Explain that no document info was found for '" + question + "'."
  }

  const GroundedPrefix: string := "Context provided:\n"

  function GroundedPrompt(contextChunks: seq<string>, question: string): string {
    GroundedPrefix + Join(contextChunks, "\n\n") + "\n\n"
    + "User Question: " + question + "\n\n"
    + "Answer strictly based on the context. If not present, state clearly."
  }

  /** The four prompts `process_query` sends, as recorded in the call
      trace: by what they are built from. `IntentQuery(q, d)` stands for
      `IntentPrompt(q, d)`, `GenericQuery(q)` for `GenericPrompt(q)`,
      `NoInfoQuery(q)` for `NoInfoPrompt(q)` and `GroundedQuery(cs, q)` for
      `GroundedPrompt(cs, q)`. */
  datatype Prompt =
    | IntentQuery(question: string, doc: Option<string>)
    | GenericQuery(question: string)
    | NoInfoQuery(question: string)
    | GroundedQuery(contextChunks: seq<string>, question: string)

  // ---------------------------------------------------------------------
  // Intent analysis

  /** The intent used whenever the model's reply cannot be used. */
  function DefaultIntent(question: string): seq<Member> {
    [Member("is_generic", JBool(false)), Member("is_current_file", JBool(false)),
     Member("queries", JArr([JStr(question)]))]
  }

  /** What `analyze_query_intent` makes of the model's reply: the text from
      the first `{` through the last `}` handed to `json.loads`. With no `{`
      the default intent is returned at once; the `end != -1` test always
      passes, and a `}` missing after the first `{` leaves an empty slice,
      on which `json.loads` raises, so the default is returned then too. */
  function IntentFromResponse(response: string, question: string, parse: string -> Option<seq<Member>>): (intent: seq<Member>)
    ensures Find(response, '{') == -1 ==> intent == DefaultIntent(question)
    ensures RFind(response, '}') < Find(response, '{') ==> intent == DefaultIntent(question)
    ensures 0 <= Find(response, '{') < RFind(response, '}') ==>
      intent == parse(response[Find(response, '{') .. RFind(response, '}') + 1]).GetOr(DefaultIntent(question))
  {
    var start := Find(response, '{');
    var end := RFind(response, '}') + 1;
    if start != -1 && end != -1 then
      var text := Slice(response, start, end);
      if text == "" then DefaultIntent(question)
      else
        match parse(text)
        case Some(members) => members
        case None => DefaultIntent(question)
    else
      DefaultIntent(question)
  }

  /** A reply made of prose without braces around one JSON object hands
      exactly that object's text to the parser. */
  lemma ExtractsEmbeddedObject(pre: string, obj: string, post: string, question: string,
                               parse: string -> Option<seq<Member>>)
    requires '{' !in pre && '}' !in post
    requires |obj| >= 2 && obj[0] == '{' && obj[|obj| - 1] == '}'
    ensures IntentFromResponse(pre + obj + post, question, parse) == parse(obj).GetOr(DefaultIntent(question))
  {
    var response := pre + obj + post;
    var start, last := |pre|, |pre| + |obj| - 1;
    assert response[start] == '{' && response[last] == '}';
    assert forall j :: 0 <= j < |pre| ==> response[j] == pre[j];
    assert forall j :: last < j < |response| ==> response[j] == post[j - |pre| - |obj|];
    assert response[start..last + 1] == obj;
  }

  /** `analyze_query_intent`: the model is asked for the intent and its reply
      interpreted. `LLMEngine.generate` never raises, so the `except` branch
      is never taken. */
  function AnalyzeQueryIntent(llm: LLMEngine, question: string, doc: Option<string>,
                              parse: string -> Option<seq<Member>>): (intent: seq<Member>)
    ensures var response := llm.Generate(IntentPrompt(question, doc));
      intent == DefaultIntent(question)
      || (0 <= Find(response, '{') < RFind(response, '}')
          && parse(response[Find(response, '{') .. RFind(response, '}') + 1]) == Some(intent))
  {
    IntentFromResponse(llm.Generate(IntentPrompt(question, doc)), question, parse)
  }

  /** `intent.get("is_generic", False)`, as a truth value. */
  predicate IsGeneric(intent: seq<Member>) {
    Truthy(DictGet(intent, "is_generic", JBool(false)))
  }

  /** `intent.get("is_current_file", False)`, as a truth value. */
  predicate IsCurrentFile(intent: seq<Member>) {
    Truthy(DictGet(intent, "is_current_file", JBool(false)))
  }

  /** `intent.get("queries", [question])` */
  function Queries(intent: seq<Member>, question: string): Json {
    DictGet(intent, "queries", JArr([JStr(question)]))
  }

  /** Whenever the intent cannot be had, the question is treated as not
      generic, not about the current file, and searched for as it is. */
  lemma DefaultIntentSearchesQuestion(question: string)
    ensures !IsGeneric(DefaultIntent(question)) && !IsCurrentFile(DefaultIntent(question))
    ensures Iterate(Queries(DefaultIntent(question), question)) == Some([JStr(question)])
  {
  }

  /** An object without the three keys behaves like the default intent. */
  lemma MissingKeysDefault(intent: seq<Member>, question: string)
    requires forall i :: 0 <= i < |intent| ==> intent[i].key !in ["is_generic", "is_current_file", "queries"]
    ensures !IsGeneric(intent) && !IsCurrentFile(intent)
    ensures Queries(intent, question) == JArr([JStr(question)])
  {
  }

  // ---------------------------------------------------------------------
  // Multi-query search

  /** The Pinecone filter: the current document, only when the intent says
      the question is about it and a document is open. */
  function DocumentFilter(isCurrentFile: bool, doc: Option<string>): (filter: Option<string>)
    ensures filter.Some? <==> isCurrentFile && doc.Some? && doc.value != ""
    ensures filter.Some? ==> filter.value == doc.value
  {
    if isCurrentFile && doc.Some? && doc.value != "" then Some(doc.value) else None
  }

  /** `generate_embedding(q)` with its default retries. */
  function VariantVector(q: Json, env: Services): seq<Json> {
    Embedding(q, DefaultRetries, env.embedHttp).0
  }

  /** The embedding of every variant, in order. */
  function VariantVectors(qs: seq<Json>, env: Services): (vs: seq<seq<Json>>)
    ensures |vs| == |qs|
    ensures forall i :: 0 <= i < |qs| ==> vs[i] == VariantVector(qs[i], env)
  {
    seq(|qs|, i requires 0 <= i < |qs| => VariantVector(qs[i], env))
  }

  /** The matches one variant with embedding `vector` contributes, before
      de-duplication: none when the embedding is empty or the search raises. */
  function Hits(vector: seq<Json>, filter: Option<string>, env: Services): seq<Match> {
    if vector == [] then []
    else
      match env.search(vector, TopK, filter)
      case SearchRaised => []
      case SearchOk(matches) => matches
  }

  /** The calls one variant makes. */
  function VariantCalls(q: Json, vector: seq<Json>, filter: Option<string>): seq<Call> {
    [Embed(q)] + (if vector == [] then [] else [Search(vector, filter)])
  }

  /** The matches of all variants, given their embeddings, variant after
      variant. */
  function Found(vs: seq<seq<Json>>, filter: Option<string>, env: Services): seq<Match> {
    if vs == [] then []
    else Found(vs[..|vs| - 1], filter, env) + Hits(vs[|vs| - 1], filter, env)
  }

  /** The calls of all variants, given their embeddings. */
  function SearchCalls(qs: seq<Json>, vs: seq<seq<Json>>, filter: Option<string>): seq<Call>
    requires |vs| == |qs|
  {
    if qs == [] then []
    else SearchCalls(qs[..|qs| - 1], vs[..|vs| - 1], filter) + VariantCalls(qs[|qs| - 1], vs[|vs| - 1], filter)
  }

  /** Variants contribute independently: the matches of two runs of
      variants are the matches of each, one after the other. */
  lemma {:induction false} FoundAppend(a: seq<seq<Json>>, b: seq<seq<Json>>, filter: Option<string>, env: Services)
    ensures Found(a + b, filter, env) == Found(a, filter, env) + Found(b, filter, env)
    decreases |b|
  {
    if b == [] {
      assert a + b == a;
    } else {
      var n := |b| - 1;
      var ab := a + b;
      assert ab[..|ab| - 1] == a + b[..n] && ab[|ab| - 1] == b[n];
      FoundAppend(a, b[..n], filter, env);
      var hits := Hits(b[n], filter, env);
      assert Found(ab, filter, env) == Found(a + b[..n], filter, env) + hits;
      assert Found(b, filter, env) == Found(b[..n], filter, env) + hits;
      AppendAssoc(Found(a, filter, env), Found(b[..n], filter, env), hits);
    }
  }

  /** The same for the calls. */
  lemma {:induction false} SearchCallsAppend(qa: seq<Json>, qb: seq<Json>, va: seq<seq<Json>>, vb: seq<seq<Json>>,
                                             filter: Option<string>)
    requires |va| == |qa| && |vb| == |qb|
    ensures SearchCalls(qa + qb, va + vb, filter) == SearchCalls(qa, va, filter) + SearchCalls(qb, vb, filter)
    decreases |qb|
  {
    if qb == [] {
      assert qa + qb == qa && va + vb == va;
    } else {
      var n := |qb| - 1;
      var qab, vab := qa + qb, va + vb;
      assert qab[..|qab| - 1] == qa + qb[..n] && qab[|qab| - 1] == qb[n];
      assert vab[..|vab| - 1] == va + vb[..n] && vab[|vab| - 1] == vb[n];
      SearchCallsAppend(qa, qb[..n], va, vb[..n], filter);
      var calls := VariantCalls(qb[n], vb[n], filter);
      assert SearchCalls(qab, vab, filter) == SearchCalls(qa + qb[..n], va + vb[..n], filter) + calls;
      assert SearchCalls(qb, vb, filter) == SearchCalls(qb[..n], vb[..n], filter) + calls;
      AppendAssoc(SearchCalls(qa, va, filter), SearchCalls(qb[..n], vb[..n], filter), calls);
    }
  }

  /** A variant whose embedding is empty, or whose search raises, adds no
      match, and the variants after it are still searched. */
  lemma SkippedVariant(qa: seq<Json>, q: Json, qb: seq<Json>, va: seq<seq<Json>>, v: seq<Json>, vb: seq<seq<Json>>,
                       filter: Option<string>, env: Services)
    requires |va| == |qa| && |vb| == |qb|
    requires v == [] || env.search(v, TopK, filter).SearchRaised?
    ensures Found(va + [v] + vb, filter, env) == Found(va + vb, filter, env)
    ensures SearchCalls(qa + [q] + qb, va + [v] + vb, filter)
         == SearchCalls(qa, va, filter) + VariantCalls(q, v, filter) + SearchCalls(qb, vb, filter)
  {
    SkippedVariantFound(va, v, vb, filter, env);
    SkippedVariantCalls(qa, q, qb, va, v, vb, filter);
  }

  lemma SkippedVariantFound(va: seq<seq<Json>>, v: seq<Json>, vb: seq<seq<Json>>, filter: Option<string>, env: Services)
    requires Hits(v, filter, env) == []
    ensures Found(va + [v] + vb, filter, env) == Found(va + vb, filter, env)
  {
    FoundAppend(va + [v], vb, filter, env);
    FoundAppend(va, [v], filter, env);
    FoundAppend(va, vb, filter, env);
    assert [v][..0] == [];
    assert Found([v], filter, env) == Found([], filter, env) + Hits(v, filter, env);
  }

  lemma SkippedVariantCalls(qa: seq<Json>, q: Json, qb: seq<Json>, va: seq<seq<Json>>, v: seq<Json>, vb: seq<seq<Json>>,
                            filter: Option<string>)
    requires |va| == |qa| && |vb| == |qb|
    ensures SearchCalls(qa + [q] + qb, va + [v] + vb, filter)
         == SearchCalls(qa, va, filter) + VariantCalls(q, v, filter) + SearchCalls(qb, vb, filter)
  {
    SearchCallsAppend(qa + [q], qb, va + [v], vb, filter);
    SearchCallsAppend(qa, [q], va, [v], filter);
    assert [q][..0] == [] && [v][..0] == [];
    assert SearchCalls([q], [v], filter) == SearchCalls([], [], filter) + VariantCalls(q, v, filter);
  }

  /** A search that never returns a match leaves nothing to merge. */
  lemma {:induction false} NoHitsNothingFound(vs: seq<seq<Json>>, filter: Option<string>, env: Services)
    requires forall v: seq<Json> :: env.search(v, TopK, filter) == SearchRaised || env.search(v, TopK, filter) == SearchOk([])
    ensures Found(vs, filter, env) == []
  {
    if vs != [] {
      NoHitsNothingFound(vs[..|vs| - 1], filter, env);
    }
  }

  /** One more variant. */
  lemma FoundStep(qs: seq<Json>, vs: seq<seq<Json>>, i: nat, filter: Option<string>, env: Services)
    requires |vs| == |qs| && i < |qs|
    ensures Found(vs[..i + 1], filter, env) == Found(vs[..i], filter, env) + Hits(vs[i], filter, env)
    ensures SearchCalls(qs[..i + 1], vs[..i + 1], filter) == SearchCalls(qs[..i], vs[..i], filter) + VariantCalls(qs[i], vs[i], filter)
  {
    assert qs[..i + 1][..i] == qs[..i];
    assert vs[..i + 1][..i] == vs[..i];
  }

  /** The body of the `for q in queries` loop up to the merge: the variant
      is embedded and, when the embedding is non-empty, searched; a search
      that raises contributes no match. */
  method SearchVariant(q: Json, filter: Option<string>, env: Services)
    returns (vector: seq<Json>, results: seq<Match>, calls: seq<Call>)
    ensures vector == VariantVector(q, env)
    ensures results == Hits(vector, filter, env)
    ensures calls == VariantCalls(q, vector, filter)
  {
    var attempts;
    vector, attempts := GenerateEmbedding(q, DefaultRetries, env.embedHttp);
    calls := [Embed(q)];
    if vector == [] {
      return vector, [], calls;
    }
    calls := calls + [Search(vector, filter)];
    match env.search(vector, TopK, filter) {
      case SearchRaised =>
        results := [];
      case SearchOk(matches) =>
        results := matches;
    }
  }

  /** The `for q in queries` loop: new ids are appended in order. */
  method GatherMatches(qs: seq<Json>, filter: Option<string>, env: Services)
    returns (allMatches: seq<Match>, calls: seq<Call>)
    ensures allMatches == KeepFirst(Found(VariantVectors(qs, env), filter, env))
    ensures calls == SearchCalls(qs, VariantVectors(qs, env), filter)
  {
    ghost var vs := VariantVectors(qs, env);
    allMatches := [];
    var seenIds: set<string> := {};
    calls := [];
    for i := 0 to |qs|
      invariant allMatches == KeepFirst(Found(vs[..i], filter, env))
      invariant seenIds == Ids(allMatches)
      invariant calls == SearchCalls(qs[..i], vs[..i], filter)
    {
      FoundStep(qs, vs, i, filter, env);
      var vector, results, variantCalls := SearchVariant(qs[i], filter, env);
      calls := calls + variantCalls;
      allMatches, seenIds := MergeNew(allMatches, seenIds, Found(vs[..i], filter, env), results);
    }
    assert qs[..|qs|] == qs && vs[..|qs|] == vs;
  }

  // ---------------------------------------------------------------------
  // process_query

  /** The relevant matches: merged, sorted, and above the threshold among
      the first ten. */
  function Context(qs: seq<Json>, filter: Option<string>, isCurrentFile: bool, env: Services): seq<Match> {
    Relevant(Top(SortByScore(KeepFirst(Found(VariantVectors(qs, env), filter, env)))), Threshold(isCurrentFile))
  }

  /** `process_query` on a cache: what it returns, the remote calls it
      makes, and the cache after it. */
  function QueryStep(llm: LLMEngine, cache: map<string, QueryResult>, question: string, doc: Option<string>,
                     env: Services): Step
  {
    var key := CacheKey(question, doc);
    if key in cache then Step(Returned(cache[key]), [], cache)
    else IntentStep(llm, cache, question, doc, AnalyzeQueryIntent(llm, question, doc, env.parseObject), env)
  }

  /** A cache miss, once the intent is known: a generic question is answered
      directly, any other is searched for. */
  function IntentStep(llm: LLMEngine, cache: map<string, QueryResult>, question: string, doc: Option<string>,
                      intent: seq<Member>, env: Services): Step
  {
    var analysis := [Generate(IntentQuery(question, doc))];
    if IsGeneric(intent) then
      Step(Returned(QueryResult(llm.Generate(GenericPrompt(question)), {})), analysis + [Generate(GenericQuery(question))], cache)
    else
      SearchStep(llm, cache, question, doc, intent, analysis, env)
  }

  /** The search path of a question that is not generic. */
  function SearchStep(llm: LLMEngine, cache: map<string, QueryResult>, question: string, doc: Option<string>,
                      intent: seq<Member>, analysis: seq<Call>, env: Services): Step
  {
    var isCurrentFile := IsCurrentFile(intent);
    var filter := DocumentFilter(isCurrentFile, doc);
    match Iterate(Queries(intent, question))
    case None => Step(RaisedTypeError, analysis, cache)
    case Some(qs) =>
      AnswerStep(llm, cache, CacheKey(question, doc), question, Context(qs, filter, isCurrentFile, env),
                 analysis + SearchCalls(qs, VariantVectors(qs, env), filter))
  }

  /** The answer once the relevant matches are known: grounded and cached
      when there are any, "no information" otherwise. */
  function AnswerStep(llm: LLMEngine, cache: map<string, QueryResult>, key: string, question: string,
                      relevant: seq<Match>, searched: seq<Call>): Step
  {
    if relevant == [] then
      Step(Returned(QueryResult(llm.Generate(NoInfoPrompt(question)), {})), searched + [Generate(NoInfoQuery(question))], cache)
    else
      var contextChunks := ChunkTexts(relevant);
      var result := QueryResult(llm.Generate(GroundedPrompt(contextChunks, question)), DocumentNames(relevant));
      Step(Returned(result), searched + [Generate(GroundedQuery(contextChunks, question))], cache[key := result])
  }

  /** The module state: the language-model engine and `QUERY_CACHE`. */
  class QueryPipeline {
    const llm: LLMEngine
    var cache: map<string, QueryResult>

    constructor (llm: LLMEngine)
      ensures this.llm == llm && cache == map[]
    {
      this.llm := llm;
      cache := map[];
    }

    /** `process_query`. */
    method ProcessQuery(question: string, doc: Option<string>, env: Services)
      returns (outcome: Outcome, calls: seq<Call>)
      modifies this
      ensures Step(outcome, calls, cache) == QueryStep(llm, old(cache), question, doc, env)
    {
      var cacheKey := CacheKey(question, doc);
      if cacheKey in cache {
        return Returned(cache[cacheKey]), [];
      }
      var intent := AnalyzeQueryIntent(llm, question, doc, env.parseObject);
      outcome, calls := AnswerUncached(question, doc, intent, env);
    }

    /** The rest of `process_query` after a cache miss, once the intent is
        known. */
    method AnswerUncached(question: string, doc: Option<string>, intent: seq<Member>, env: Services)
      returns (outcome: Outcome, calls: seq<Call>)
      modifies this
      ensures Step(outcome, calls, cache) == IntentStep(llm, old(cache), question, doc, intent, env)
    {
      calls := [Generate(IntentQuery(question, doc))];
      if IsGeneric(intent) {
        var answer := llm.Generate(GenericPrompt(question));
        return Returned(QueryResult(answer, {})), calls + [Generate(GenericQuery(question))];
      }
      var isCurrentFile := IsCurrentFile(intent);
      var queries := Queries(intent, question);
      var pineconeFilter := DocumentFilter(isCurrentFile, doc);
      match Iterate(queries) {
        case None =>
          return RaisedTypeError, calls;
        case Some(qs) =>
          var allMatches, searchCalls := GatherMatches(qs, pineconeFilter, env);
          calls := calls + searchCalls;
          allMatches := SortByScore(allMatches);
          var contextChunks, sources := SelectContext(allMatches, Threshold(isCurrentFile));
          ghost var relevant := Context(qs, pineconeFilter, isCurrentFile, env);
          outcome, calls := Respond(question, CacheKey(question, doc), contextChunks, sources, relevant, calls);
      }
    }

    /** The end of `process_query`: the grounded answer, cached, when there
        is context, the "no information" answer otherwise. */
    method Respond(question: string, key: string, contextChunks: seq<string>, sources: set<string>,
                   ghost relevant: seq<Match>, searched: seq<Call>)
      returns (outcome: Outcome, calls: seq<Call>)
      requires contextChunks == ChunkTexts(relevant) && sources == DocumentNames(relevant)
      modifies this
      ensures Step(outcome, calls, cache) == AnswerStep(llm, old(cache), key, question, relevant, searched)
    {
      if contextChunks == [] {
        var answer := llm.Generate(NoInfoPrompt(question));
        return Returned(QueryResult(answer, {})), searched + [Generate(NoInfoQuery(question))];
      }
      var answer := llm.Generate(GroundedPrompt(contextChunks, question));
      var result := QueryResult(answer, sources);
      cache := cache[key := result];
      return Returned(result), searched + [Generate(GroundedQuery(contextChunks, question))];
    }
  }

  // ---------------------------------------------------------------------
  // Properties of process_query

  /** A cache hit returns the stored result and calls nothing. */
  lemma CacheHit(llm: LLMEngine, cache: map<string, QueryResult>, question: string, doc: Option<string>, env: Services)
    requires CacheKey(question, doc) in cache
    ensures QueryStep(llm, cache, question, doc, env) == Step(Returned(cache[CacheKey(question, doc)]), [], cache)
  {
  }

  /** The cache only ever gains the entry for this question, and only on the
      grounded path: after the grounded prompt was sent, with a non-empty
      set of sources. The generic, no-information and `TypeError` paths
      leave it as it was. */
  lemma CacheWrittenOnlyWhenGrounded(llm: LLMEngine, cache: map<string, QueryResult>, question: string,
                                     doc: Option<string>, env: Services)
    ensures var st := QueryStep(llm, cache, question, doc, env);
      st.cache == cache || WroteGrounded(llm, question, st, cache, CacheKey(question, doc))
  {
    var key := CacheKey(question, doc);
    if key !in cache {
      IntentStepCache(llm, cache, key, question, doc, AnalyzeQueryIntent(llm, question, doc, env.parseObject), env);
    }
  }

  lemma IntentStepCache(llm: LLMEngine, cache: map<string, QueryResult>, key: string, question: string,
                        doc: Option<string>, intent: seq<Member>, env: Services)
    requires key == CacheKey(question, doc) && key !in cache
    ensures var st := IntentStep(llm, cache, question, doc, intent, env);
      st.cache == cache || WroteGrounded(llm, question, st, cache, key)
  {
    if !IsGeneric(intent) && Iterate(Queries(intent, question)).Some? {
      var qs := Iterate(Queries(intent, question)).value;
      var isCurrentFile := IsCurrentFile(intent);
      var filter := DocumentFilter(isCurrentFile, doc);
      var analysis := [Generate(IntentQuery(question, doc))];
      var relevant := Context(qs, filter, isCurrentFile, env);
      assert IntentStep(llm, cache, question, doc, intent, env) == SearchStep(llm, cache, question, doc, intent, analysis, env);
      assert SearchStep(llm, cache, question, doc, intent, analysis, env)
          == AnswerStep(llm, cache, key, question, relevant, analysis + SearchCalls(qs, VariantVectors(qs, env), filter));
      AnswerStepCache(llm, cache, key, question, relevant, analysis + SearchCalls(qs, VariantVectors(qs, env), filter));
    } else {
      assert IntentStep(llm, cache, question, doc, intent, env).cache == cache;
    }
  }

  /** The cache-writing step: the returned result is stored under the key,
      it names at least one source, and it is the model's answer to the
      grounded prompt for some non-empty context, the last call made. */
  ghost predicate WroteGrounded(llm: LLMEngine, question: string, st: Step, cache: map<string, QueryResult>, key: string) {
    key !in cache && st.outcome.Returned? && st.cache == cache[key := st.outcome.result]
    && st.outcome.result.sources != {}
    && |st.calls| >= 1 && st.calls[|st.calls| - 1].Generate?
    && var p := st.calls[|st.calls| - 1].prompt;
       p.GroundedQuery? && p.question == question && p.contextChunks != []
       && st.outcome.result.answer == llm.Generate(GroundedPrompt(p.contextChunks, question))
  }

  lemma AnswerStepCache(llm: LLMEngine, cache: map<string, QueryResult>, key: string, question: string,
                        relevant: seq<Match>, searched: seq<Call>)
    requires key !in cache
    ensures var st := AnswerStep(llm, cache, key, question, relevant, searched);
      st.cache == cache || WroteGrounded(llm, question, st, cache, key)
  {
    if relevant != [] {
      assert DocumentNameOf(relevant[0]) in DocumentNames(relevant);
    }
  }

  /** The grounded prompt opens with the context header, whatever the
      chunks and the question. */
  lemma GroundedPromptPrefix(contextChunks: seq<string>, question: string)
    ensures GroundedPrefix <= GroundedPrompt(contextChunks, question)
  {
  }

  /** Empty sources never come from the cache-writing path. */
  lemma EmptySourcesLeaveCache(llm: LLMEngine, cache: map<string, QueryResult>, question: string,
                               doc: Option<string>, env: Services)
    requires CacheKey(question, doc) !in cache
    ensures var st := QueryStep(llm, cache, question, doc, env);
      st.outcome.RaisedTypeError? || st.outcome.result.sources == {} ==> st.cache == cache
  {
    CacheWrittenOnlyWhenGrounded(llm, cache, question, doc, env);
  }

  /** A generic question is answered directly: no search, no sources, no
      cache entry. */
  lemma GenericQuestion(llm: LLMEngine, cache: map<string, QueryResult>, question: string, doc: Option<string>, env: Services)
    requires CacheKey(question, doc) !in cache
    requires IsGeneric(AnalyzeQueryIntent(llm, question, doc, env.parseObject))
    ensures var st := QueryStep(llm, cache, question, doc, env);
      st.outcome == Returned(QueryResult(llm.Generate(GenericPrompt(question)), {}))
      && st.calls == [Generate(IntentQuery(question, doc)), Generate(GenericQuery(question))]
      && st.cache == cache
  {
    IntentGeneric(llm, cache, question, doc, AnalyzeQueryIntent(llm, question, doc, env.parseObject), env);
  }

  lemma IntentGeneric(llm: LLMEngine, cache: map<string, QueryResult>, question: string, doc: Option<string>,
                      intent: seq<Member>, env: Services)
    requires IsGeneric(intent)
    ensures var st := IntentStep(llm, cache, question, doc, intent, env);
      st.outcome == Returned(QueryResult(llm.Generate(GenericPrompt(question)), {}))
      && st.calls == [Generate(IntentQuery(question, doc)), Generate(GenericQuery(question))]
      && st.cache == cache
  {
  }

  /** Once a question has been answered from context, asking it again (or
      any question with the same key) returns the same result with no call. */
  lemma RepeatedQuestionHitsCache(llm: LLMEngine, cache: map<string, QueryResult>, q1: string, q2: string,
                                  doc: Option<string>, env1: Services, env2: Services)
    requires CacheKey(q2, doc) == CacheKey(q1, doc)
    requires QueryStep(llm, cache, q1, doc, env1).cache != cache
    ensures var st1 := QueryStep(llm, cache, q1, doc, env1);
      QueryStep(llm, st1.cache, q2, doc, env2) == Step(st1.outcome, [], st1.cache)
  {
    CacheWrittenOnlyWhenGrounded(llm, cache, q1, doc, env1);
  }

  /** When the search never returns a match, the answer is the
      no-information one, with no sources and no cache entry. */
  lemma EmptyIndexGivesNoInfo(llm: LLMEngine, cache: map<string, QueryResult>, question: string,
                              doc: Option<string>, env: Services)
    requires CacheKey(question, doc) !in cache
    requires forall v: seq<Json>, f: Option<string> ::
      env.search(v, TopK, f) == SearchRaised || env.search(v, TopK, f) == SearchOk([])
    ensures var st := QueryStep(llm, cache, question, doc, env);
      st.cache == cache
      && (st.outcome.Returned? ==> st.outcome.result.sources == {})
      && (st.outcome.Returned? && !IsGeneric(AnalyzeQueryIntent(llm, question, doc, env.parseObject)) ==>
            st.outcome.result.answer == llm.Generate(NoInfoPrompt(question)))
  {
    var intent := AnalyzeQueryIntent(llm, question, doc, env.parseObject);
    IntentNoHits(llm, cache, question, doc, intent, env);
  }

  lemma IntentNoHits(llm: LLMEngine, cache: map<string, QueryResult>, question: string, doc: Option<string>,
                     intent: seq<Member>, env: Services)
    requires forall v: seq<Json>, f: Option<string> ::
      env.search(v, TopK, f) == SearchRaised || env.search(v, TopK, f) == SearchOk([])
    ensures var st := IntentStep(llm, cache, question, doc, intent, env);
      st.cache == cache
      && (st.outcome.Returned? ==> st.outcome.result.sources == {})
      && (st.outcome.Returned? && !IsGeneric(intent) ==> st.outcome.result.answer == llm.Generate(NoInfoPrompt(question)))
  {
    if !IsGeneric(intent) && Iterate(Queries(intent, question)).Some? {
      var qs := Iterate(Queries(intent, question)).value;
      var filter := DocumentFilter(IsCurrentFile(intent), doc);
      NoHitsNothingFound(VariantVectors(qs, env), filter, env);
      assert KeepFirst(Found(VariantVectors(qs, env), filter, env)) == [];
      assert Context(qs, filter, IsCurrentFile(intent), env) == [];
      var analysis := [Generate(IntentQuery(question, doc))];
      var searched := analysis + SearchCalls(qs, VariantVectors(qs, env), filter);
      assert IntentStep(llm, cache, question, doc, intent, env) == SearchStep(llm, cache, question, doc, intent, analysis, env);
      assert SearchStep(llm, cache, question, doc, intent, analysis, env)
          == AnswerStep(llm, cache, CacheKey(question, doc), question, [], searched);
      assert AnswerStep(llm, cache, CacheKey(question, doc), question, [], searched).outcome
          == Returned(QueryResult(llm.Generate(NoInfoPrompt(question)), {}));
    }
  }

  /** `process_query` raises exactly when the intent is not generic and its
      `queries` entry is null, a boolean or a number. */
  lemma TypeErrorExactly(llm: LLMEngine, cache: map<string, QueryResult>, question: string, doc: Option<string>, env: Services)
    ensures var st := QueryStep(llm, cache, question, doc, env);
      var intent := AnalyzeQueryIntent(llm, question, doc, env.parseObject);
      st.outcome.RaisedTypeError? <==>
        CacheKey(question, doc) !in cache && !IsGeneric(intent)
        && IsScalar(Queries(intent, question)) && !Queries(intent, question).JStr?
  {
    if CacheKey(question, doc) !in cache {
      IntentTypeError(llm, cache, question, doc, AnalyzeQueryIntent(llm, question, doc, env.parseObject), env);
    }
  }

  lemma IntentTypeError(llm: LLMEngine, cache: map<string, QueryResult>, question: string, doc: Option<string>,
                        intent: seq<Member>, env: Services)
    ensures IntentStep(llm, cache, question, doc, intent, env).outcome.RaisedTypeError? <==>
      !IsGeneric(intent) && IsScalar(Queries(intent, question)) && !Queries(intent, question).JStr?
  {
  }
}
