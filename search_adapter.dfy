/** The Search Adapter of bot.py: `jalankan_pencarian_serpapi` reduces the
    outcome of one SerpApi call to the single reply string sent back to the
    user. The network call itself is not modelled; its outcome is an input. */
module SearchAdapter {
  import opened Wrappers
  import opened Text

  /** One entry of `organic_results`; each key may be absent. */
  datatype OrganicResult = OrganicResult(title: Option<string>, link: Option<string>, snippet: Option<string>)

  /** The fetched response dictionary, reduced to the two keys the formatter looks at. */
  datatype Response = Response(error: Option<string>, organic: Option<seq<OrganicResult>>)

  /** What the SerpApi call produced: a response, or an exception raised on the way. */
  datatype Outcome = Fetched(response: Response) | Fault(detail: string)

  /** Only the first five organic results are shown (the slice `[:5]`). */
  const MaxEntries: nat := 5

  /** Placeholder for a missing field. */
  const Missing: string := "N/A"

  const UpstreamErrorPrefix: string := "Maaf, terjadi kesalahan dari SerpApi: "
  const NoResultsMessage: string := "Maaf, tidak ada hasil yang ditemukan."
  const InternalErrorMessage: string := "Terjadi kesalahan internal " + "saat mencoba mencari. Coba lagi nanti."

  /** The magnifying-glass emoji that opens the result header. */
  const HeaderIcon: string := "\U{1F50D}"

  function Min(a: nat, b: nat): nat { if a <= b then a else b }

  /** Python's `s[:n]` on a list: the first `n` elements, or all of them. */
  function Take<T>(s: seq<T>, n: nat): (r: seq<T>)
    ensures |r| == Min(n, |s|)
    ensures r == s[..|r|]
  {
    if |s| <= n then s else s[..n]
  }

  /** The fixed text before the query in the header line. */
  const HeaderOpening: string := HeaderIcon + " *Hasil Pencarian untuk: "

  /** The header line naming the query in bold, followed by a blank line: the
      fixed opening, the query verbatim, then the closing `*` and two newlines. */
  function Header(query: string): (h: string)
    ensures |h| == |HeaderOpening| + |query| + 3
    ensures h[..|HeaderOpening|] == "\U{1F50D} *Hasil Pencarian untuk: "
    ensures h[|HeaderOpening|..|HeaderOpening| + |query|] == query
    ensures h[|HeaderOpening| + |query|..] == "*\n\n"
  {
    HeaderOpening + query + "*\n\n"
  }

  /** One result: its link, its title in bold, its snippet in italics, a blank
      line; a missing field reads "N/A". */
  function RenderEntry(r: OrganicResult): (e: string)
    ensures e == (if r.link.Some? then r.link.value else "N/A") + "\n*"
               + (if r.title.Some? then r.title.value else "N/A") + "*\n_"
               + (if r.snippet.Some? then r.snippet.value else "N/A") + "_\n\n"
  {
    r.link.GetOr(Missing) + "\n" + "*" + r.title.GetOr(Missing) + "*\n" + "_" + r.snippet.GetOr(Missing) + "_\n\n"
  }

  /** The text the formatting loop appends after the header for `rs`: the
      renderings of the results, one after another in their order. */
  function RenderAll(rs: seq<OrganicResult>): (text: string)
    ensures text == Concat(EntryTexts(rs))
  {
    if rs == [] then ""
    else
      var init, last := rs[..|rs| - 1], rs[|rs| - 1];
      assert EntryTexts(rs) == EntryTexts(init) + [RenderEntry(last)];
      ConcatSnoc(EntryTexts(init), RenderEntry(last));
      RenderAll(init) + RenderEntry(last)
  }

  /** The three appends of one loop pass add exactly the result's entry. */
  lemma AppendsMakeEntry(prefix: string, r: OrganicResult)
    ensures prefix + r.link.GetOr(Missing) + "\n" + "*" + r.title.GetOr(Missing) + "*\n"
          + "_" + r.snippet.GetOr(Missing) + "_\n\n"
         == prefix + RenderEntry(r)
  {
  }

  /** Rendering one more result of `rs` appends its entry. */
  lemma RenderAllExtends(rs: seq<OrganicResult>, i: nat)
    requires i < |rs|
    ensures RenderAll(rs[..i + 1]) == RenderAll(rs[..i]) + RenderEntry(rs[i])
  {
    assert rs[..i + 1][..i] == rs[..i];
  }

  /** The rendered texts of `rs`, one per result, position for position. */
  function EntryTexts(rs: seq<OrganicResult>): (texts: seq<string>)
    ensures |texts| == |rs|
    ensures forall i :: 0 <= i < |rs| ==> texts[i] == RenderEntry(rs[i])
  {
    if rs == [] then [] else [RenderEntry(rs[0])] + EntryTexts(rs[1..])
  }

  /** The reply for `query` given the outcome of the search call: the
      specification that `FormatReply` implements. An error key wins over
      everything; an `organic_results` key (even an empty list) gives the
      header and the first five entries; otherwise "no results"; a fault
      gives the internal-error message. Every reply is non-empty. */
  function Reply(query: string, outcome: Outcome): (reply: string)
    ensures reply != []
  {
    match outcome
    case Fault(_) => InternalErrorMessage
    case Fetched(resp) =>
      if resp.error.Some? then UpstreamErrorPrefix + resp.error.value
      else if resp.organic.Some? then Header(query) + RenderAll(Take(resp.organic.value, MaxEntries))
      else NoResultsMessage
  }

  /** `jalankan_pencarian_serpapi` after the network call: the header is
      extended by three appends per result inside a loop over the first five. */
  method FormatReply(query: string, outcome: Outcome) returns (reply: string)
    ensures reply == Reply(query, outcome)
  {
    match outcome
    case Fault(_) =>
      return InternalErrorMessage;
    case Fetched(resp) =>
      if resp.error.Some? {
        return UpstreamErrorPrefix + resp.error.value;
      }
      if resp.organic.Some? {
        var top := Take(resp.organic.value, MaxEntries);
        var formatted := Header(query);
        for i := 0 to |top|
          invariant formatted == Header(query) + RenderAll(top[..i])
        {
          ghost var before := formatted;
          var title := top[i].title.GetOr(Missing);
          var link := top[i].link.GetOr(Missing);
          var snippet := top[i].snippet.GetOr(Missing);
          formatted := formatted + link + "\n";
          formatted := formatted + "*" + title + "*\n";
          formatted := formatted + "_" + snippet + "_\n\n";
          AppendsMakeEntry(before, top[i]);
          RenderAllExtends(top, i);
          AppendAssoc(Header(query), RenderAll(top[..i]), RenderEntry(top[i]));
        }
        assert top[..|top|] == top;
        return formatted;
      }
      return NoResultsMessage;
  }

  // ---------------------------------------------------------------------------
  // Properties of the reply

  /** An `error` key decides the reply, whether or not results are present too. */
  lemma ErrorTakesPrecedence(query: string, message: string, organic: Option<seq<OrganicResult>>)
    ensures Reply(query, Fetched(Response(Some(message), organic)))
         == "Maaf, terjadi kesalahan dari SerpApi: " + message
  {
  }

  /** Without an error, an `organic_results` key makes the reply open with the
      header that names the query. */
  lemma ResultsOpenWithHeader(query: string, organic: seq<OrganicResult>)
    ensures var reply := Reply(query, Fetched(Response(None, Some(organic))));
      |Header(query)| <= |reply| &&
      reply[..|Header(query)|] == "\U{1F50D} *Hasil Pencarian untuk: " + query + "*\n\n"
  {
    var header := Header(query);
    var reply := header + RenderAll(Take(organic, MaxEntries));
    assert reply[..|header|] == header;
    assert HeaderOpening == "\U{1F50D} *Hasil Pencarian untuk: ";
  }

  /** Below the header, the reply lists one entry for each of the first
      `min(5, |organic|)` results, in their original order, and nothing else. */
  lemma ListsFirstEntriesInOrder(query: string, organic: seq<OrganicResult>)
    ensures var entries := EntryTexts(Take(organic, MaxEntries));
      |entries| == Min(5, |organic|) &&
      (forall i :: 0 <= i < |entries| ==> entries[i] == RenderEntry(organic[i])) &&
      Reply(query, Fetched(Response(None, Some(organic)))) == Header(query) + Concat(entries)
  {
  }

  /** An entry whose fields hold no line break reads back line by line: the
      link, the bold title, the italic snippet, then the blank separator line. */
  lemma EntryLines(r: OrganicResult)
    requires '\n' !in r.link.GetOr(Missing)
    requires '\n' !in r.title.GetOr(Missing)
    requires '\n' !in r.snippet.GetOr(Missing)
    ensures Split(RenderEntry(r), '\n')
         == [r.link.GetOr(Missing), "*" + r.title.GetOr(Missing) + "*",
             "_" + r.snippet.GetOr(Missing) + "_", "", ""]
  {
    var link, title, snippet := r.link.GetOr(Missing), r.title.GetOr(Missing), r.snippet.GetOr(Missing);
    var boldTitle, italicSnippet := "*" + title + "*", "_" + snippet + "_";
    assert '\n' !in boldTitle;
    assert '\n' !in italicSnippet;
    assert RenderEntry(r) == link + ['\n'] + (boldTitle + ['\n'] + (italicSnippet + ['\n'] + ("" + ['\n'] + "")));
    SplitAtFirst("", '\n', "");
    SplitNoSeparator("", '\n');
    SplitAtFirst(italicSnippet, '\n', "" + ['\n'] + "");
    SplitAtFirst(boldTitle, '\n', italicSnippet + ['\n'] + ("" + ['\n'] + ""));
    SplitAtFirst(link, '\n', boldTitle + ['\n'] + (italicSnippet + ['\n'] + ("" + ['\n'] + "")));
  }

  /** Results past the fifth never reach the reply. */
  lemma {:induction false} ExtraResultsIgnored(query: string, organic: seq<OrganicResult>, more: seq<OrganicResult>)
    requires |organic| >= MaxEntries
    ensures Reply(query, Fetched(Response(None, Some(organic + more))))
         == Reply(query, Fetched(Response(None, Some(organic))))
  {
    assert (organic + more)[..MaxEntries] == organic[..MaxEntries];
  }

  /** Below the cap, one more result adds exactly its entry at the end. */
  lemma {:induction false} OneMoreResultAppendsEntry(query: string, organic: seq<OrganicResult>, r: OrganicResult)
    requires |organic| < MaxEntries
    ensures Reply(query, Fetched(Response(None, Some(organic + [r]))))
         == Reply(query, Fetched(Response(None, Some(organic)))) + RenderEntry(r)
  {
    var longer := organic + [r];
    assert Take(longer, MaxEntries) == longer;
    assert Take(organic, MaxEntries) == organic;
    assert longer[..|longer| - 1] == organic;
    assert RenderAll(longer) == RenderAll(organic) + RenderEntry(r);
    assert Header(query) + (RenderAll(organic) + RenderEntry(r))
        == (Header(query) + RenderAll(organic)) + RenderEntry(r);
  }

  /** An empty `organic_results` list gives the header alone, not the
      "no results" message: the key's presence is what counts. */
  lemma EmptyResultsGiveHeaderOnly(query: string)
    ensures Reply(query, Fetched(Response(None, Some([])))) == Header(query)
    ensures Reply(query, Fetched(Response(None, Some([])))) != NoResultsMessage
  {
    assert Header(query)[0] != NoResultsMessage[0];
  }

  /** With neither key present the reply is the fixed "no results" message. */
  lemma NoKeysGiveNoResults(query: string)
    ensures Reply(query, Fetched(Response(None, None))) == "Maaf, tidak ada hasil yang ditemukan."
  {
  }

  /** Any fault gives the same fixed message, whatever its detail and query. */
  lemma FaultsGiveInternalError(query: string, detail: string)
    ensures Reply(query, Fault(detail)) == "Terjadi kesalahan internal " + "saat mencoba mencari. Coba lagi nanti."
  {
  }
}
