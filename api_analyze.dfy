/**
 * The analysis endpoint (api/analyze.ts): method and key guards, the prompt built
 * from the aggregates, and the grounding URLs collected from the model's first
 * candidate and de-duplicated in first-occurrence order. The SDK call is an input.
 */
module ApiAnalyze {
  import opened Wrappers
  import opened Types
  import Text

  const UnableText := "Unable to generate analysis."

  datatype WebSource = WebSource(uri: Option<string>)
  datatype GroundingChunk = GroundingChunk(web: Option<WebSource>)
  datatype GroundingMetadata = GroundingMetadata(groundingChunks: Option<seq<GroundingChunk>>)
  datatype Candidate = Candidate(groundingMetadata: Option<GroundingMetadata>)

  /** How `generateContent` settled: it threw, or it answered with a text and candidates, either possibly absent. */
  datatype ModelOutcome = ModelThrew | ModelAnswered(text: Option<string>, candidates: Option<seq<Candidate>>)

  /** The POST body; missing `metrics` makes reading them throw. */
  datatype AnalyzeBody = AnalyzeBody(metrics: Option<AggregateMetrics>, platform: string, startDate: string, endDate: string)

  /** The values the prompt embeds (its fixed wording is not modelled). */
  datatype Prompt = Prompt(
    platformLabel: string,
    startDate: string,
    endDate: string,
    totalReach: int,
    totalEngagement: int,
    engagementRate: real,
    topPostType: string)

  datatype ResponseBody = Analysis(text: string, urls: seq<string>) | ErrorMessage(error: string)

  datatype Response = Response(status: int, body: ResponseBody)

  /** How the prompt names the platform: `all` reads "Facebook & Instagram", anything else its own name. */
  function PlatformLabel(platform: string): (name: string)
    ensures platform == "all" ==> name == "Facebook & Instagram"
    ensures platform != "all" ==> name == platform
  {
    if platform == "all" then "Facebook & Instagram" else platform
  }

  /** The prompt embeds the platform's label, the range and the aggregates it was sent. */
  function BuildPrompt(body: AnalyzeBody): (prompt: Prompt)
    requires body.metrics.Some?
    ensures prompt.platformLabel == PlatformLabel(body.platform)
    ensures prompt.startDate == body.startDate && prompt.endDate == body.endDate
    ensures var m := body.metrics.value;
      prompt.totalReach == m.totalReach && prompt.totalEngagement == m.totalEngagement
      && prompt.engagementRate == m.engagementRate && prompt.topPostType == m.topPostType
  {
    var m := body.metrics.value;
    Prompt(PlatformLabel(body.platform), body.startDate, body.endDate,
      m.totalReach, m.totalEngagement, m.engagementRate, m.topPostType)
  }

  /** `result.candidates?.[0]?.groundingMetadata?.groundingChunks`, or nothing. */
  function GroundingChunks(candidates: Option<seq<Candidate>>): (chunks: seq<GroundingChunk>)
    ensures candidates.None? || candidates.value == [] ==> chunks == []
    ensures candidates.Some? && candidates.value != [] && candidates.value[0].groundingMetadata.None? ==> chunks == []
    ensures candidates.Some? && candidates.value != [] && candidates.value[0].groundingMetadata.Some? ==>
      chunks == candidates.value[0].groundingMetadata.value.groundingChunks.GetOr([])
  {
    if candidates.None? || candidates.value == [] then []
    else match candidates.value[0].groundingMetadata
      case None => []
      case Some(meta) => meta.groundingChunks.GetOr([])
  }

  /** `chunk.web?.uri` when it is a non-empty string. */
  function ChunkUri(c: GroundingChunk): Option<string> {
    if c.web.Some? && Text.OrElse(c.web.value.uri, []) != [] then c.web.value.uri else None
  }

  /** The URIs of the chunks that carry one, in chunk order. */
  function WebUris(chunks: seq<GroundingChunk>): (urls: seq<string>)
    ensures |urls| <= |chunks|
    ensures forall u :: u in urls ==> u != [] && exists k :: 0 <= k < |chunks| && ChunkUri(chunks[k]) == Some(u)
    ensures forall k :: 0 <= k < |chunks| && ChunkUri(chunks[k]).Some? ==> ChunkUri(chunks[k]).value in urls
    ensures |chunks| == 1 ==> urls == if ChunkUri(chunks[0]).Some? then [ChunkUri(chunks[0]).value] else []
  {
    if chunks == [] then []
    else
      var init := chunks[..|chunks| - 1];
      var urls := WebUris(init);
      assert forall k :: 0 <= k < |init| ==> init[k] == chunks[k];
      match ChunkUri(chunks[|chunks| - 1])
      case None => urls
      case Some(u) => urls + [u]
  }

  /**
   * Collection keeps chunk order: the URIs of a concatenation are those of the
   * first part followed by those of the second. With the single-chunk case of
   * `WebUris`, this fixes the list entirely.
   */
  lemma {:induction false} WebUrisAppend(a: seq<GroundingChunk>, b: seq<GroundingChunk>)
    ensures WebUris(a + b) == WebUris(a) + WebUris(b)
    decreases |b|
  {
    if b == [] {
      assert a + b == a;
    } else {
      var init := b[..|b| - 1];
      assert (a + b)[..|a + b| - 1] == a + init;
      assert (a + b)[|a + b| - 1] == b[|b| - 1];
      WebUrisAppend(a, init);
    }
  }

  /** The `forEach` that pushes each chunk's URI into a fresh list. */
  method CollectUrls(chunks: seq<GroundingChunk>) returns (urls: seq<string>)
    ensures urls == WebUris(chunks)
  {
    urls := [];
    for i := 0 to |chunks|
      invariant urls == WebUris(chunks[..i])
    {
      assert chunks[..i + 1][..i] == chunks[..i];
      var chunk := chunks[i];
      if chunk.web.Some? && chunk.web.value.uri.Some? && chunk.web.value.uri.value != [] {
        urls := urls + [chunk.web.value.uri.value];
      }
    }
    assert chunks[..|chunks|] == chunks;
  }

  predicate NoDuplicates(s: seq<string>) {
    forall i, j :: 0 <= i < j < |s| ==> s[i] != s[j]
  }

  /**
   * `Array.from(new Set(s))`: each element once, at its first occurrence. The
   * result has no duplicates and holds exactly the elements of `s`.
   */
  function Distinct(s: seq<string>): (d: seq<string>)
    ensures NoDuplicates(d)
    ensures forall x :: x in d <==> x in s
  {
    if s == [] then []
    else
      var init := s[..|s| - 1];
      var d := Distinct(init);
      assert forall x :: x in s <==> x in init || x == s[|s| - 1];
      if s[|s| - 1] in d then d else d + [s[|s| - 1]]
  }

  /** Where `x` first occurs in `s`. */
  function FirstIndex(s: seq<string>, x: string): (i: nat)
    requires x in s
    ensures i < |s| && s[i] == x && x !in s[..i]
  {
    if s[0] == x then 0
    else
      var i := FirstIndex(s[1..], x);
      assert s[..i + 1] == [s[0]] + s[1..][..i];
      i + 1
  }

  lemma FirstIndexUnique(s: seq<string>, x: string, i: nat)
    requires i < |s| && s[i] == x && x !in s[..i]
    ensures FirstIndex(s, x) == i
  {
    var f := FirstIndex(s, x);
    forall j | 0 <= j < i ensures s[j] != x {
      assert s[j] == s[..i][j];
    }
    forall j | 0 <= j < f ensures s[j] != x {
      assert s[j] == s[..f][j];
    }
  }

  /** Dropping the last element keeps the first occurrence of anything still present. */
  lemma FirstIndexOfPrefix(s: seq<string>, x: string)
    requires |s| > 0 && x in s[..|s| - 1]
    ensures FirstIndex(s, x) == FirstIndex(s[..|s| - 1], x)
  {
    var init := s[..|s| - 1];
    var i := FirstIndex(init, x);
    assert s[..i] == init[..i];
    FirstIndexUnique(s, x, i);
  }

  /** `Distinct` lists the elements in the order of their first occurrences. */
  lemma {:induction false} DistinctKeepsFirstOccurrenceOrder(s: seq<string>)
    ensures forall i, j :: 0 <= i < j < |Distinct(s)| ==>
      FirstIndex(s, Distinct(s)[i]) < FirstIndex(s, Distinct(s)[j])
  {
    if s != [] {
      var n := |s|;
      var init := s[..n - 1];
      DistinctKeepsFirstOccurrenceOrder(init);
      var d, d0 := Distinct(s), Distinct(init);
      forall i | 0 <= i < |d0| ensures FirstIndex(s, d0[i]) == FirstIndex(init, d0[i]) {
        assert d0[i] in init;
        FirstIndexOfPrefix(s, d0[i]);
      }
      if s[n - 1] !in d0 {
        assert s[n - 1] !in s[..n - 1];
        FirstIndexUnique(s, s[n - 1], n - 1);
        forall i | 0 <= i < |d0| ensures FirstIndex(s, d[i]) < FirstIndex(s, d[|d0|]) {
          assert d[i] == d0[i];
        }
      }
    }
  }

  /** The de-duplication the handler runs: a loop over the list with the `Set` seen so far. */
  method DistinctInOrder(s: seq<string>) returns (d: seq<string>)
    ensures d == Distinct(s)
  {
    d := [];
    var seen: set<string> := {};
    for i := 0 to |s|
      invariant d == Distinct(s[..i])
      invariant forall x :: x in seen <==> x in d
    {
      assert s[..i + 1][..i] == s[..i];
      if s[i] !in seen {
        d := d + [s[i]];
        seen := seen + {s[i]};
      }
    }
    assert s[..|s|] == s;
  }

  /**
   * The handler: 405 for anything but POST, 500 when the key is missing (before
   * any model call), 500 "Failed to process analysis" when the metrics are absent
   * or the model call throws, otherwise 200 with the text (or a fixed fallback)
   * and the grounding URLs: each chunk URI once, in first-occurrence order.
   */
  method AnalyzeHandler(verb: string, apiKey: Option<string>, body: AnalyzeBody, outcome: ModelOutcome)
    returns (prompt: Option<Prompt>, response: Response)
    ensures verb != "POST" ==> prompt == None && response == Response(405, ErrorMessage("Method Not Allowed"))
    ensures verb == "POST" && Text.Missing(apiKey) ==>
      prompt == None && response == Response(500, ErrorMessage("Server configuration error: Missing API Key"))
    ensures prompt.Some? <==> verb == "POST" && !Text.Missing(apiKey) && body.metrics.Some?
    ensures prompt.Some? ==> prompt.value == BuildPrompt(body)
    ensures response.status == 200 <==> prompt.Some? && outcome.ModelAnswered?
    ensures response.status == 200 ==>
      var urls := WebUris(GroundingChunks(outcome.candidates));
      && response.body == Analysis(Text.OrElse(outcome.text, UnableText), Distinct(urls))
      && NoDuplicates(response.body.urls)
      && (forall u :: u in response.body.urls <==> u in urls)
    ensures verb == "POST" && !Text.Missing(apiKey) && response.status != 200 ==>
      response == Response(500, ErrorMessage("Failed to process analysis"))
  {
    if verb != "POST" {
      return None, Response(405, ErrorMessage("Method Not Allowed"));
    }
    if Text.Missing(apiKey) {
      return None, Response(500, ErrorMessage("Server configuration error: Missing API Key"));
    }
    if body.metrics.None? {
      return None, Response(500, ErrorMessage("Failed to process analysis"));
    }
    prompt := Some(BuildPrompt(body));
    if outcome.ModelThrew? {
      return prompt, Response(500, ErrorMessage("Failed to process analysis"));
    }
    var urls := CollectUrls(GroundingChunks(outcome.candidates));
    var unique := DistinctInOrder(urls);
    response := Response(200, Analysis(Text.OrElse(outcome.text, UnableText), unique));
  }
}
