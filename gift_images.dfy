/**
 * `src/utils/gift_image_utils.py`: finding a gift's id by its name in the
 * gifts table, and the download of its picture by id. The table is an
 * argument (the source reads it from a JSON file) and the HTTP status of the
 * download is an argument too.
 */
module GiftImages {
  import opened Wrappers
  import opened Text

  const URL_PREFIX: string := "https://api.changes.tg/original/"
  const URL_SUFFIX: string := ".png"

  /** The gifts JSON object in file order: each entry is (id, display name). */
  type GiftTable = seq<(string, string)>

  /** The entry at `k` names `name`, ignoring letter case. */
  predicate NameMatches(gifts: GiftTable, k: int, name: string) {
    0 <= k < |gifts| && Lower(gifts[k].1) == Lower(name)
  }

  /** Lines 23-26: the id of the first entry whose name equals `name` when
      both are lower-cased, or None when no entry does. */
  function GetGiftIdByName(gifts: GiftTable, name: string): (r: Option<string>)
    ensures r.None? <==> forall k :: 0 <= k < |gifts| ==> !NameMatches(gifts, k, name)
    ensures r.Some? ==> exists k :: (NameMatches(gifts, k, name) && gifts[k].0 == r.value &&
      forall j :: 0 <= j < k ==> !NameMatches(gifts, j, name))
  {
    if gifts == [] then None
    else if Lower(gifts[0].1) == Lower(name) then
      assert NameMatches(gifts, 0, name);
      Some(gifts[0].0)
    else
      var r := GetGiftIdByName(gifts[1..], name);
      assert forall k :: 1 <= k < |gifts| ==> (NameMatches(gifts, k, name) <==> NameMatches(gifts[1..], k - 1, name));
      if r.Some? then
        var k :| NameMatches(gifts[1..], k, name) && gifts[1..][k].0 == r.value &&
          forall j :: 0 <= j < k ==> !NameMatches(gifts[1..], j, name);
        assert NameMatches(gifts, k + 1, name);
        r
      else r
  }

  /** The lookup only sees the query through its lower-cased form, so two
      queries that differ in letter case find the same id. */
  lemma {:induction false} LookupIgnoresCase(gifts: GiftTable, a: string, b: string)
    requires Lower(a) == Lower(b)
    ensures GetGiftIdByName(gifts, a) == GetGiftIdByName(gifts, b)
  {
    if gifts != [] {
      LookupIgnoresCase(gifts[1..], a, b);
    }
  }

  /** Line 38: the address the picture of gift `id` is downloaded from. */
  function ImageUrl(id: string): (url: string)
    ensures |url| == |URL_PREFIX| + |id| + |URL_SUFFIX|
    ensures url[..|URL_PREFIX|] == URL_PREFIX
    ensures url[|URL_PREFIX|..|url| - |URL_SUFFIX|] == id
    ensures url[|url| - |URL_SUFFIX|..] == URL_SUFFIX
  {
    URL_PREFIX + id + URL_SUFFIX
  }

  /** Different ids are fetched from different addresses. */
  lemma ImageUrlInjective(a: string, b: string)
    requires ImageUrl(a) == ImageUrl(b)
    ensures a == b
  {
    var u := ImageUrl(a);
    assert a == u[|URL_PREFIX|..|u| - |URL_SUFFIX|];
  }

  /** A downloaded picture, known by the address it came from. */
  datatype Downloaded = Downloaded(url: string)

  /** Lines 38-42: the picture of `id` when the server answers 200, and
      nothing otherwise. */
  function FetchGiftImageById(id: string, status: int): (r: Option<Downloaded>)
    ensures r.Some? <==> status == 200
    ensures r.Some? ==> r.value.url == ImageUrl(id)
  {
    if status == 200 then Some(Downloaded(ImageUrl(id))) else None
  }
}
