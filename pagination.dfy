/**
 * What ListCopilotSeats promises about the pages it requests and the logins
 * it returns. Which pages are requested and what the listing returns depend
 * only on what each page request returns, never on the rate-limit state, so
 * they are stated about the sequence of page results (GitHub.Listed and
 * GitHub.Requested over GitHub.Fetched), which GitHub.Client.ListCopilotSeats
 * is proved to follow.
 */
module Pagination {
  import opened Wrappers
  import opened Records
  import opened GitHub

  type PageResult = Result<SeatsResponse, GetError>

  /** How many pages the listing from page i + 1 on requests. */
  function PageCount(results: seq<PageResult>, i: nat): nat
    requires Terminates(results) && i < |results|
    decreases |results| - i
  {
    if PageEnds(results[i]) then 1 else 1 + PageCount(results, i + 1)
  }

  /** The logins of the pages with index in [i, j), concatenated in page order. */
  function PagesLogins(results: seq<PageResult>, i: nat, j: nat): seq<string>
    requires i <= j <= |results|
    decreases j - i
  {
    if i == j then []
    else
      (match results[i]
       case Success(resp) => Logins(resp.seats)
       case Failure(_) => [])
      + PagesLogins(results, i + 1, j)
  }

  /** ListCopilotSeats requests pages i + 1, i + 2, ... in order, one request each, PageCount of them. */
  lemma {:induction false} RequestsInOrder(results: seq<PageResult>, i: nat)
    requires Terminates(results) && i < |results|
    ensures |Requested(results, i)| == PageCount(results, i)
    ensures forall j :: 0 <= j < |Requested(results, i)| ==> Requested(results, i)[j] == i + 1 + j
    decreases |results| - i
  {
    if !PageEnds(results[i]) {
      RequestsInOrder(results, i + 1);
      var rest := Requested(results, i + 1);
      forall j | 0 <= j < |Requested(results, i)|
        ensures Requested(results, i)[j] == i + 1 + j
      {
        if j > 0 {
          assert Requested(results, i)[j] == rest[j - 1];
        }
      }
    }
  }

  /** The last page requested exists and ends the listing: it failed or it was short. */
  lemma {:induction false} LastRequestedEnds(results: seq<PageResult>, i: nat)
    requires Terminates(results) && i < |results|
    ensures i + PageCount(results, i) <= |results|
    ensures PageEnds(results[i + PageCount(results, i) - 1])
    decreases |results| - i
  {
    if !PageEnds(results[i]) {
      LastRequestedEnds(results, i + 1);
    }
  }

  /** Every page requested before the last one was full, so the listing stops at the first page that ends it. */
  lemma {:induction false} EarlierPagesFull(results: seq<PageResult>, i: nat, j: nat)
    requires Terminates(results) && i < |results|
    requires i <= j < i + PageCount(results, i) - 1
    ensures j < |results| && results[j].Success? && |results[j].value.seats| >= PerPage
    decreases |results| - i
  {
    if j > i {
      EarlierPagesFull(results, i + 1, j);
    }
  }

  /**
   * The listing fails exactly when the last page requested failed, and then
   * reports that page's number with the error `get` returned for it.
   */
  lemma {:induction false} ListingErrorNamesPage(results: seq<PageResult>, i: nat)
    requires Terminates(results) && i < |results|
    ensures i + PageCount(results, i) <= |results|
    ensures Listed(results, i).Failure? <==> results[i + PageCount(results, i) - 1].Failure?
    ensures Listed(results, i).Failure? ==>
      Listed(results, i).error == SeatsPageError(i + PageCount(results, i), results[i + PageCount(results, i) - 1].error)
    decreases |results| - i
  {
    if !PageEnds(results[i]) {
      ListingErrorNamesPage(results, i + 1);
    }
  }

  /** A successful listing returns the logins of every page it requested, concatenated in order. */
  lemma {:induction false} ListingLogins(results: seq<PageResult>, i: nat)
    requires Terminates(results) && i < |results|
    ensures i + PageCount(results, i) <= |results|
    ensures Listed(results, i).Success? ==> Listed(results, i).value == PagesLogins(results, i, i + PageCount(results, i))
    decreases |results| - i
  {
    if PageEnds(results[i]) {
      assert PagesLogins(results, i + 1, i + 1) == [];
    } else {
      ListingLogins(results, i + 1);
      var n := PageCount(results, i);
      assert PagesLogins(results, i, i + n) == Logins(results[i].value.seats) + PagesLogins(results, i + 1, i + n);
    }
  }

  /** A page of `size` seats, all for the same login, as `get` returns it. */
  function SeatsPage(size: nat): (r: PageResult)
    ensures r.Success? && |r.value.seats| == size
  {
    Success(SeatsResponse(size, seq(size, _ => CopilotSeat(Assignee("octocat")))))
  }

  /** Pages of 100, 100 and 37 seats: three requests and 237 logins. */
  lemma ThreePages()
    ensures var results := [SeatsPage(100), SeatsPage(100), SeatsPage(37)];
      && Terminates(results)
      && Requested(results, 0) == [1, 2, 3]
      && Listed(results, 0).Success?
      && |Listed(results, 0).value| == 237
  {
  }

  /** An empty first page, answered by a 200 on the first attempt: one request and no logins. */
  lemma EmptyFirstPage(call: Call<SeatsResponse>)
    requires call.reply(0) == Response(StatusOK, Headers("", "", ""), Some(SeatsResponse(0, [])), call.now)
    ensures Terminates(Fetched([call]))
    ensures Requested(Fetched([call]), 0) == [1]
    ensures Listed(Fetched([call]), 0) == Success([])
  {
    FetchedAt([call], 0);
  }
}
