/** The file name under which a search response for one site and query is stored. */
module SerpApi {

  /** `hexdigest()[:12]`: the first twelve characters of the digest (all of it when shorter). */
  function ShortDigest(hexDigest: string): (h: string)
    ensures h <= hexDigest
    ensures |h| == if |hexDigest| >= 12 then 12 else |hexDigest|
  {
    if |hexDigest| >= 12 then hexDigest[..12] else hexDigest
  }

  /**
   * `query_to_artifact_name`: "serpapi_" + site + "_" + the first 12 hex digits of the query's digest
   * + ".json". `sha256Hex` is the hex SHA-256 (FIPS 180-4) of the query's UTF-8 encoding.
   */
  function ArtifactName(site: string, query: string, sha256Hex: string -> string): (name: string)
    ensures "serpapi_" + site + "_" <= name
    ensures |name| >= 5 && name[|name| - 5..] == ".json"
  {
    "serpapi_" + site + "_" + ShortDigest(sha256Hex(query)) + ".json"
  }

  /**
   * The name is scoped by site and query: for site names without "_" and a 64-digit hex digest,
   * two equal names come from the same site and from queries whose digests share their first 12
   * digits, and queries with equal digests get equal names.
   */
  lemma ArtifactNameScoped(site1: string, query1: string, site2: string, query2: string, sha256Hex: string -> string)
    requires '_' !in site1 && '_' !in site2
    requires |sha256Hex(query1)| == 64 && |sha256Hex(query2)| == 64
    ensures ArtifactName(site1, query1, sha256Hex) == ArtifactName(site2, query2, sha256Hex)
      <==> site1 == site2 && sha256Hex(query1)[..12] == sha256Hex(query2)[..12]
  {
    var n1 := ArtifactName(site1, query1, sha256Hex);
    var n2 := ArtifactName(site2, query2, sha256Hex);
    if n1 == n2 {
      var p := |"serpapi_"|;
      assert n1[p..] == site1 + "_" + sha256Hex(query1)[..12] + ".json";
      assert n2[p..] == site2 + "_" + sha256Hex(query2)[..12] + ".json";
      var tail1 := site1 + "_" + sha256Hex(query1)[..12] + ".json";
      var tail2 := site2 + "_" + sha256Hex(query2)[..12] + ".json";
      assert tail1 == tail2;
      if |site1| < |site2| {
        assert false;
      }
      if |site2| < |site1| {
        assert false;
      }
      assert site1 == tail1[..|site1|] == tail2[..|site2|] == site2;
      assert sha256Hex(query1)[..12] == tail1[|site1| + 1..|site1| + 13] == tail2[|site2| + 1..|site2| + 13]
        == sha256Hex(query2)[..12];
    }
  }
}
