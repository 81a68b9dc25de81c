/** The argument handling of the `/cari` command (`cari_command` in bot.py):
    the argument tokens are joined into the query, and an empty query gets the
    usage hint instead of a search. */
module CariCommand {
  import opened Text
  import opened SearchAdapter

  /** What the handler does with its arguments. */
  datatype Command = Usage | Search(query: string)

  /** The reply sent instead of searching when no query was given. */
  const UsageHint: string := "Tolong berikan kata kunci setelah " + "`/cari`. Contoh: `/cari resep nasi goreng`"

  /** Joining the tokens gives the empty string exactly for no tokens or a
      single empty token. */
  lemma JoinEmptyIff(args: seq<string>)
    ensures JoinWithSpaces(args) == "" <==> args == [] || args == [""]
  {
    if |args| >= 2 {
      assert |JoinWithSpaces(args)| >= 1;
    }
  }

  /** The guard of `cari_command`: the usage hint for an empty query (and no
      search), otherwise a search for the space-joined tokens. */
  function ParseCari(args: seq<string>): (c: Command)
    ensures c.Usage? <==> args == [] || args == [""]
    ensures c.Search? ==> c.query == JoinWithSpaces(args)
    ensures c.Search? ==> c.query != "" && |c.query| == TotalLength(args) + |args| - 1
  {
    JoinEmptyIff(args);
    var query := JoinWithSpaces(args);
    if query == "" then Usage else Search(query)
  }

  /** The searched query keeps the tokens: splitting it on spaces gives back
      the argument list when no token holds a space (as is the case for
      tokens taken from a message split on whitespace). */
  lemma SearchKeepsTokens(args: seq<string>)
    requires forall i :: 0 <= i < |args| ==> ' ' !in args[i]
    ensures ParseCari(args).Search? ==> Split(ParseCari(args).query, ' ') == args
  {
    if args != [] {
      SplitJoinRoundTrip(args);
    }
  }

  /** No search reply can be mistaken for the usage hint: they differ in
      their first two characters. */
  lemma ReplyIsNotUsageHint(query: string, outcome: Outcome)
    ensures Reply(query, outcome) != UsageHint
  {
    var reply := Reply(query, outcome);
    assert UsageHint[0] == 'T' && UsageHint[1] == 'o';
    match outcome
    case Fault(_) =>
      assert reply[1] == 'e';
    case Fetched(resp) =>
      if resp.error.Some? {
        assert reply[0] == UpstreamErrorPrefix[0] == 'M';
      } else if resp.organic.Some? {
        var header := Header(query);
        assert reply[..2] == header[..2];
        assert header[..2] == HeaderOpening[..2] == "\U{1F50D} ";
      } else {
        assert reply[0] == 'M';
      }
  }

  /** The text of the final reply of `cari_command`, given the outcome the
      search call would have for the query: the usage hint when the joined
      arguments are empty, otherwise the formatted search reply for them. */
  function CariReply(args: seq<string>, outcome: Outcome): (r: string)
    ensures (args == [] || args == [""]) ==> r == UsageHint
    ensures !(args == [] || args == [""]) ==> r == Reply(JoinWithSpaces(args), outcome)
    ensures r == UsageHint <==> args == [] || args == [""]
  {
    match ParseCari(args)
    case Usage => UsageHint
    case Search(query) =>
      ReplyIsNotUsageHint(query, outcome);
      Reply(query, outcome)
  }
}
