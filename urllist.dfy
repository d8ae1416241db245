/** The list of user-submitted URLs the prober visits (server/index.js:37, 299-361):
    append on a valid submission, the "last 20, newest first" view, and removal of the
    first entry with a given id. Parsing a URL (`new URL(url)`) is external: its
    verdict arrives as a flag. Identifiers are `Date.now() + Math.random()`, so the
    random part arrives as a parameter in [0, 1). */
module UrlList {
  import opened Common

  datatype SubmittedUrl = SubmittedUrl(url: string, timestamp: int, id: real)

  /** The `url` member of a request body as JSON delivers it. */
  datatype UrlField = AbsentField | NonString | Text(s: string)

  datatype SubmitError = InvalidUrl | InvalidUrlFormat

  datatype RemoveError = UrlNotFound

  /** `submittedUrls.findIndex(u => u.id == id)`, with -1 written as None. */
  function FindIndex(urls: seq<SubmittedUrl>, id: real): (r: Option<nat>)
    ensures r.None? <==> forall j :: 0 <= j < |urls| ==> urls[j].id != id
    ensures r.Some? ==> r.value < |urls| && urls[r.value].id == id
                        && forall j :: 0 <= j < r.value ==> urls[j].id != id
    decreases |urls|
  {
    if urls == [] then None
    else if urls[0].id == id then Some(0)
    else
      var rest := FindIndex(urls[1..], id);
      assert forall j :: 1 <= j < |urls| ==> urls[1..][j - 1] == urls[j];
      if rest.None? then None else Some(rest.value + 1)
  }

  /** `submittedUrls.slice(-20).reverse()`. */
  function RecentFirst(urls: seq<SubmittedUrl>): (r: seq<SubmittedUrl>)
    ensures |r| == Min(20, |urls|)
    ensures forall i :: 0 <= i < |r| ==> r[i] == urls[|urls| - 1 - i]
  {
    var n := Min(20, |urls|);
    seq(n, i requires 0 <= i < n => urls[|urls| - 1 - i])
  }

  class UrlRegistry {
    var urls: seq<SubmittedUrl>

    constructor ()
      ensures urls == []
    {
      urls := [];
    }

    /** POST /api/submit-url. */
    method Submit(body: UrlField, parses: bool, now: int, jitter: real)
      returns (r: Result<SubmittedUrl, SubmitError>)
      requires 0.0 <= jitter < 1.0
      modifies this
      ensures (body.AbsentField? || body.NonString? || body == Text("")) ==>
        r == Failure(InvalidUrl) && urls == old(urls)
      ensures body.Text? && body.s != "" && !parses ==>
        r == Failure(InvalidUrlFormat) && urls == old(urls)
      ensures body.Text? && body.s != "" && parses ==>
        r == Success(SubmittedUrl(body.s, now, now as real + jitter))
        && urls == old(urls) + [r.value]
    {
      if !body.Text? || body.s == "" {
        return Failure(InvalidUrl);
      }
      if !parses {
        return Failure(InvalidUrlFormat);
      }
      var entry := SubmittedUrl(body.s, now, now as real + jitter);
      urls := urls + [entry];
      r := Success(entry);
    }

    /** GET /api/submitted-urls. */
    method Recent() returns (r: seq<SubmittedUrl>)
      ensures |r| == Min(20, |urls|)
      ensures forall i :: 0 <= i < |r| ==> r[i] == urls[|urls| - 1 - i]
    {
      r := RecentFirst(urls);
    }

    /** POST /api/remove-url (and DELETE /api/submit-url/:id, which does the same). */
    method Remove(id: real) returns (r: Result<SubmittedUrl, RemoveError>)
      modifies this
      ensures (forall j :: 0 <= j < |old(urls)| ==> old(urls)[j].id != id) <==> r.Failure?
      ensures r.Failure? ==> r.error == UrlNotFound && urls == old(urls)
      ensures r.Success? ==>
        exists k :: 0 <= k < |old(urls)| && old(urls)[k].id == id
          && (forall j :: 0 <= j < k ==> old(urls)[j].id != id)
          && r.value == old(urls)[k]
          && urls == old(urls)[..k] + old(urls)[k + 1..]
    {
      var index := FindIndex(urls, id);
      if index.None? {
        return Failure(UrlNotFound);
      }
      var k := index.value;
      r := Success(urls[k]);
      urls := urls[..k] + urls[k + 1..];
    }
  }

  /** Removing drops exactly one entry, and the others keep their order. */
  lemma RemovalKeepsOthers(urls: seq<SubmittedUrl>, k: nat)
    requires k < |urls|
    ensures var rest := urls[..k] + urls[k + 1..];
      && |rest| == |urls| - 1
      && multiset(rest) + multiset{urls[k]} == multiset(urls)
      && forall i :: 0 <= i < |rest| ==> rest[i] == urls[if i < k then i else i + 1]
  {
    assert urls == urls[..k] + [urls[k]] + urls[k + 1..];
  }
}
