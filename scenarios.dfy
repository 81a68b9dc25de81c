/** A worked `/cari` request, from the argument tokens to the final reply. */
module Scenarios {
  import opened Wrappers
  import opened SearchAdapter
  import opened CariCommand
  import opened Text

  /** The two results of the example response. */
  const ResepA: OrganicResult := OrganicResult(Some("Resep A"), Some("http://a"), Some("enak"))
  const ResepB: OrganicResult := OrganicResult(Some("Resep B"), Some("http://b"), Some("gampang"))

  /** `/cari nasi goreng` searches for "nasi goreng". */
  lemma NasiGorengQuery()
    ensures ParseCari(["nasi", "goreng"]) == Search("nasi goreng")
  {
  }

  /** `/cari nasi goreng` answered with two organic results: the reply is the
      header naming the joined query followed by both entries in the order
      the response gave them. */
  lemma NasiGorengReply()
    ensures CariReply(["nasi", "goreng"], Fetched(Response(None, Some([ResepA, ResepB]))))
         == Header("nasi goreng")
          + "http://a\n*Resep A*\n_enak_\n\n"
          + "http://b\n*Resep B*\n_gampang_\n\n"
  {
    var outcome := Fetched(Response(None, Some([ResepA, ResepB])));
    var entryA, entryB := RenderEntry(ResepA), RenderEntry(ResepB);
    NasiGorengQuery();
    assert CariReply(["nasi", "goreng"], outcome) == Reply("nasi goreng", outcome);
    assert Take([ResepA, ResepB], MaxEntries) == [ResepA, ResepB];
    assert [ResepA, ResepB][..1] == [ResepA];
    assert [ResepA][..0] == [];
    assert RenderAll([ResepA]) == entryA;
    assert RenderAll([ResepA, ResepB]) == entryA + entryB;
    assert Reply("nasi goreng", outcome) == Header("nasi goreng") + (entryA + entryB);
    AppendAssoc(Header("nasi goreng"), entryA, entryB);
    assert entryA == "http://a\n*Resep A*\n_enak_\n\n";
    assert entryB == "http://b\n*Resep B*\n_gampang_\n\n";
  }
}
