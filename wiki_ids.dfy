/** Wikidata item ids (`Q` followed by digits) as the data scripts and the
    app recognise them: the `/Q\d+$` suffix of an entity URL (case
    insensitive, returned upper-cased) and the test for a dish whose name is
    only its own item id, which every stage of the pipeline drops. */
module WikiIds {
  import opened Wrappers
  import opened Text

  /** `/^Q\d+$/i`: a `Q` or `q` and one digit or more. */
  predicate IsQidText(s: string) {
    |s| >= 2 && (s[0] == 'Q' || s[0] == 'q') && forall i :: 1 <= i < |s| ==> IsDigit(s[i])
  }

  /** `extractQidFromEntityUrl`: the part after the last `/` when it is an
      item id, upper-cased. A match of `/\/(Q\d+)$/i` cannot contain a
      further `/`, so its slash is the last one. */
  function ExtractQid(entityUrl: string): (r: Option<string>)
    ensures r.Some? ==> IsQidText(r.value) && r.value[0] == 'Q'
  {
    var k := LastIndexOf(entityUrl, '/');
    if k >= 0 && IsQidText(entityUrl[k + 1..]) then
      var q := ToUpper(entityUrl[k + 1..]);
      assert forall i :: 1 <= i < |q| ==> q[i] == entityUrl[k + 1..][i];
      Some(q)
    else None
  }

  /** An entity URL ending in `/` and an item id gives back that id,
      upper-cased; one whose last part is not an item id gives none. */
  lemma ExtractQidOfUrl(prefix: string, last: string)
    requires '/' !in last
    ensures IsQidText(last) ==> ExtractQid(prefix + "/" + last) == Some(ToUpper(last))
    ensures !IsQidText(last) ==> ExtractQid(prefix + "/" + last) == None
  {
    var url := prefix + "/" + last;
    assert url[|prefix|] == '/';
    assert url[|prefix| + 1..] == last;
    assert LastIndexOf(url, '/') == |prefix| by {
      assert '/' !in url[|prefix| + 1..];
    }
  }

  /** `isPlaceholderDishName(id, name)`: the trimmed name is an item id,
      and either the URL carries none or the name is that one. */
  predicate IsPlaceholderName(id: string, name: string) {
    var trimmedName := Trim(name);
    IsQidText(trimmedName)
    && (var qid := ExtractQid(id); qid.None? || ToUpper(trimmedName) == qid.value)
  }

  /** A placeholder's name is an item id and, when the URL ends in one,
      they agree ignoring case; a dish named after its own entity is a
      placeholder, one named after another item is not. */
  lemma PlaceholderFacts(id: string, name: string)
    ensures IsPlaceholderName(id, name) ==> IsQidText(Trim(name))
    ensures !IsQidText(Trim(name)) ==> !IsPlaceholderName(id, name)
    ensures ExtractQid(id).None? ==> (IsPlaceholderName(id, name) <==> IsQidText(Trim(name)))
    ensures IsPlaceholderName(id, name) && ExtractQid(id).Some? ==>
      exists last :: EndsWith(id, "/" + last) && ToUpper(last) == ToUpper(Trim(name))
  {
    if IsPlaceholderName(id, name) && ExtractQid(id).Some? {
      var k := LastIndexOf(id, '/');
      var last := id[k + 1..];
      assert id[|id| - |"/" + last|..] == "/" + last;
    }
  }

  /** The item ids named after their own entity URL are placeholders. */
  lemma OwnIdIsPlaceholder(prefix: string, qid: string)
    requires IsQidText(qid)
    ensures IsPlaceholderName(prefix + "/" + qid, qid)
  {
    assert '/' !in qid by {
      assert forall i :: 0 <= i < |qid| ==> qid[i] != '/';
    }
    ExtractQidOfUrl(prefix, qid);
    TrimOfTrimmed(qid);
  }
}
