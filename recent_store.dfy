/**
 * The server's request handlers over the user store: product search with its
 * per-user cache and bounded list of recent searches, deletion, lookup, the
 * list projections shown at login and on the dashboard, registration, and the
 * question endpoint.
 *
 * The database is an in-memory map from user name to the user's document,
 * read and written once per request. A JSON request body is a map from key to
 * text.
 */
module RecentStore {
  import opened Records
  import opened Strings
  import SP = SearchPipeline
  import JwtAuth
  import QueryHandler

  /** A stored user: the password hash and the recent searches, oldest first. */
  datatype UserDoc<Sent, Summ> = UserDoc(password: string, recentSearches: seq<RecentSearch<Sent, Summ>>)

  type Users<Sent, Summ> = map<string, UserDoc<Sent, Summ>>

  type Body = map<string, string>

  const NoInput := HttpError(400, "No input data provided")
  const UserNotFound := HttpError(404, "User not found")
  const NoProductId := HttpError(400, "Product ID is required")
  const InternalError := HttpError(500, "Internal server error")
  const BadCredentials := HttpError(401, "Invalid credentials")
  const Duplicate := HttpError(409, "Username already exists")

  function Get(body: Body, key: string): Option<string> {
    if key in body then Some(body[key]) else None
  }

  /** A value Python treats as true: present and non-empty. */
  predicate Truthy(v: Option<string>) {
    v.Some? && v.value != []
  }

  /** `raise HTTPException(400, detail=str(e))` for a caught `HTTPException` e:
      its text is the status code, a colon and a space, then the detail. */
  function Rewrapped(e: HttpError): (r: HttpError)
    ensures r.status == 400 && StartsWith(r.detail, NatToString(e.status) + ": ")
    ensures r.detail[|NatToString(e.status)| + 2..] == e.detail
  {
    var prefix := NatToString(e.status) + ": ";
    var r := HttpError(400, prefix + e.detail);
    assert r.detail[..|prefix|] == prefix;
    r
  }

  lemma RewrappedNoInput()
    ensures Rewrapped(NoInput) == HttpError(400, "400: " + NoInput.detail)
  {
    assert NatToString(40) == "40";
    assert NatToString(400) == "400";
  }

  lemma RewrappedNoProductId()
    ensures Rewrapped(NoProductId) == HttpError(400, "400: " + NoProductId.detail)
  {
    assert NatToString(40) == "40";
    assert NatToString(400) == "400";
  }

  lemma RewrappedUserNotFound()
    ensures Rewrapped(UserNotFound) == HttpError(400, "404: " + UserNotFound.detail)
  {
    assert NatToString(40) == "40";
    assert NatToString(404) == "404";
  }

  lemma RewrappedBadCredentials()
    ensures Rewrapped(BadCredentials) == HttpError(400, "401: " + BadCredentials.detail)
  {
    assert NatToString(40) == "40";
    assert NatToString(401) == "401";
  }

  lemma RewrappedDuplicate()
    ensures Rewrapped(Duplicate) == HttpError(400, "409: " + Duplicate.detail)
  {
    assert NatToString(40) == "40";
    assert NatToString(409) == "409";
  }

  // ---------------------------------------------------------------------------
  // Product id extraction: the pattern `/dp/([A-Z0-9]{10})`

  predicate IdChar(c: char) {
    ('A' <= c <= 'Z') || ('0' <= c <= '9')
  }

  /** "/dp/" starts at `i` and is followed by ten id characters. */
  predicate IdAt(url: string, i: nat) {
    i + 14 <= |url| && url[i..i + 4] == "/dp/" && forall k :: i + 4 <= k < i + 14 ==> IdChar(url[k])
  }

  function FirstIdAt(url: string, from: nat): (r: Option<nat>)
    ensures r.Some? ==> from <= r.value && IdAt(url, r.value)
    ensures r.Some? ==> forall j: nat :: from <= j < r.value ==> !IdAt(url, j)
    ensures r.None? ==> forall j: nat :: from <= j ==> !IdAt(url, j)
    decreases |url| - from
  {
    if from + 14 > |url| then None
    else if IdAt(url, from) then Some(from)
    else FirstIdAt(url, from + 1)
  }

  /** `re.search(r"/dp/([A-Z0-9]{10})", url).group(1)`: the ten id characters after the
      leftmost "/dp/" that has ten of them, even when more id characters follow. */
  function ExtractProductId(url: string): (r: Option<string>)
    ensures r.None? <==> forall i: nat :: !IdAt(url, i)
    ensures r.Some? ==> |r.value| == 10 && forall c :: c in r.value ==> IdChar(c)
    ensures r.Some? ==> exists i: nat :: (IdAt(url, i) && r.value == url[i + 4..i + 14] &&
      forall j: nat :: j < i ==> !IdAt(url, j))
  {
    match FirstIdAt(url, 0)
    case None => None
    case Some(i) => Some(url[i + 4..i + 14])
  }

  // ---------------------------------------------------------------------------
  // Views of stored searches

  /** The product view returned by a cache hit and by `get_product`. */
  datatype ProductView<Sent, Summ> = ProductView(
    productId: string,
    url: string,
    productDetails: ProductDetails,
    summaryDetails: Summ,
    sentimentDetails: Sent)

  function View<Sent, Summ>(r: RecentSearch<Sent, Summ>): ProductView<Sent, Summ> {
    ProductView(r.productId, r.url, r.productDetails, r.reviewSummary, r.sentimentSummary)
  }

  /** The short form of a stored search: id, url, and the product's name and image
      (`None` unless the stored details hold a text). */
  datatype Brief = Brief(productId: string, url: string, name: Option<string>, image: Option<string>)

  function OptionOf(f: Field): Option<string> {
    if f.Text? then Some(f.text) else None
  }

  function BriefOf<Sent, Summ>(r: RecentSearch<Sent, Summ>): Brief {
    Brief(r.productId, r.url, OptionOf(r.productDetails.facts.name), OptionOf(r.productDetails.facts.image))
  }

  /** The projection loop of `login` and `get_products`: one brief per stored search, in stored order. */
  method Briefs<Sent, Summ>(searches: seq<RecentSearch<Sent, Summ>>) returns (out: seq<Brief>)
    ensures |out| == |searches|
    ensures forall i :: 0 <= i < |searches| ==> out[i] == BriefOf(searches[i])
  {
    out := [];
    var i := 0;
    while i < |searches|
      invariant 0 <= i <= |searches| && |out| == i
      invariant forall j :: 0 <= j < i ==> out[j] == BriefOf(searches[j])
    {
      out := out + [BriefOf(searches[i])];
      i := i + 1;
    }
  }

  // ---------------------------------------------------------------------------
  // The bounded list of recent searches

  /** Drop the oldest entry when the list holds `max` or more, then append. With an
      empty list and `max <= 0`, `pop(0)` raises. */
  function PushBounded<T>(l: seq<T>, x: T, max: int): (r: Option<seq<T>>)
    ensures r.None? <==> (l == [] && max <= 0)
    ensures r.Some? ==> |r.value| >= 1 && r.value[|r.value| - 1] == x
    ensures r.Some? ==> |r.value| == (if |l| >= max then |l| else |l| + 1)
  {
    if |l| >= max then
      if l == [] then None else Some(l[1..] + [x])
    else Some(l + [x])
  }

  /** Exactly the head is removed when the list is full; every other entry keeps its
      place relative to the others, and the list never grows past a positive bound. */
  lemma PushBoundedKeepsOrder<T>(l: seq<T>, x: T, max: int)
    requires PushBounded(l, x, max).Some?
    ensures var r := PushBounded(l, x, max).value;
      var dropped := if |l| >= max then 1 else 0;
      |r| == |l| - dropped + 1 &&
      (forall j :: 0 <= j < |r| - 1 ==> r[j] == l[j + dropped]) &&
      (1 <= max && |l| <= max ==> |r| <= max)
  {
  }

  /** Every user's list is within the bound. */
  predicate Bounded<Sent, Summ>(users: Users<Sent, Summ>, max: int) {
    forall u :: u in users ==> |users[u].recentSearches| <= max
  }

  // ---------------------------------------------------------------------------
  // Search

  datatype SearchResult<Sent, Summ> =
    | Cached(view: ProductView<Sent, Summ>)
    | Analyzed(productId: string, data: SP.Data<Sent, Summ>)
    | PipelineFailed(response: SP.Response<Sent, Summ>, status: int)
    | Rejected(error: HttpError)

  /** The record stored for a successful run; `None` when a required part is missing
      or the record schema rejects the run's data (`accepts`). */
  function ToRecord<Sent, Summ>(pid: string, url: string, d: SP.Data<Sent, Summ>, accepts: SP.Data<Sent, Summ> -> bool): (r: Option<RecentSearch<Sent, Summ>>)
    ensures r.Some? <==> d.productDetails.Some? && d.summaryDetails.Some? && d.sentimentDetails.Some? && accepts(d)
    ensures r.Some? ==> r.value.productId == pid && r.value.url == url
    ensures r.Some? ==> Some(r.value.productDetails) == d.productDetails
    ensures r.Some? ==> Some(r.value.reviewSummary) == d.summaryDetails
    ensures r.Some? ==> Some(r.value.sentimentSummary) == d.sentimentDetails
    ensures r.Some? ==> r.value.infoDocs == d.infoDocs.GetOr([])
  {
    if d.productDetails.Some? && d.summaryDetails.Some? && d.sentimentDetails.Some? && accepts(d) then
      Some(RecentSearch(pid, url, d.productDetails.value, d.summaryDetails.value, d.sentimentDetails.value, d.infoDocs.GetOr([])))
    else None
  }

  predicate HasWebScheme(url: string) {
    StartsWith(url, "http://") || StartsWith(url, "https://")
  }

  /** The specification of the search handler: its answer and the store it leaves. */
  function SearchSpec<Sent, Summ>(users: Users<Sent, Summ>, user: string, body: Body, svc: SP.Services<Sent, Summ>,
                                  accepts: SP.Data<Sent, Summ> -> bool, maxRecent: int): (r: (SearchResult<Sent, Summ>, Users<Sent, Summ>))
    ensures !r.0.Analyzed? ==> r.1 == users
    ensures r.1.Keys == users.Keys
    ensures forall u :: u in users && u != user ==> r.1[u] == users[u]
    ensures r.0.PipelineFailed? ==> r.0.status == 400 && r.0.response.Failure?
  {
    if |body| == 0 then (Rejected(NoInput), users)
    else if !Truthy(Get(body, "url")) then (Rejected(HttpError(400, "URL is required")), users)
    else
      var url := body["url"];
      match ExtractProductId(url)
      case None => (Rejected(HttpError(400, "Invalid Amazon URL")), users)
      case Some(pid) =>
        if user !in users then (Rejected(UserNotFound), users)
        else
          var recents := users[user].recentSearches;
          match FirstMatch(recents, pid)
          case Some(i) => (Cached(View(recents[i])), users)
          case None =>
            if !HasWebScheme(url) then (Rejected(HttpError(400, "Invalid URL format")), users)
            else
              var run := SP.Outcome(url, SP.Initial(url), svc);
              if run.status != 200 then (PipelineFailed(run.response, run.status), users)
              else match ToRecord(pid, url, run.final, accepts)
                case None => (Rejected(InternalError), users)
                case Some(rec) =>
                  match PushBounded(recents, rec, maxRecent)
                  case None => (Rejected(InternalError), users)
                  case Some(list) =>
                    (Analyzed(pid, run.final.(infoDocs := None)), users[user := users[user].(recentSearches := list)])
  }

  /** `search`: validate, look in the user's cache, otherwise run the pipeline and
      store the new record in the bounded list. */
  method Search<Sent, Summ>(users: Users<Sent, Summ>, user: string, body: Body, svc: SP.Services<Sent, Summ>,
                            accepts: SP.Data<Sent, Summ> -> bool, maxRecent: int)
    returns (result: SearchResult<Sent, Summ>, store: Users<Sent, Summ>)
    ensures (result, store) == SearchSpec(users, user, body, svc, accepts, maxRecent)
  {
    store := users;
    if |body| == 0 {
      result := Rejected(NoInput);
      return;
    }
    if !Truthy(Get(body, "url")) {
      result := Rejected(HttpError(400, "URL is required"));
      return;
    }
    var url := body["url"];
    var pid := ExtractProductId(url);
    if pid.None? {
      result := Rejected(HttpError(400, "Invalid Amazon URL"));
      return;
    }
    if user !in users {
      result := Rejected(UserNotFound);
      return;
    }
    var recents := users[user].recentSearches;
    var i := 0;
    while i < |recents|
      invariant 0 <= i <= |recents|
      invariant forall j :: 0 <= j < i ==> recents[j].productId != pid.value
    {
      if recents[i].productId == pid.value {
        result := Cached(View(recents[i]));
        return;
      }
      i := i + 1;
    }
    if !HasWebScheme(url) {
      result := Rejected(HttpError(400, "Invalid URL format"));
      return;
    }
    var pipeline := new SP.Pipeline<Sent, Summ>(url);
    var response, status := pipeline.Execute(svc);
    if status != 200 {
      result := PipelineFailed(response, status);
      return;
    }
    var data := response.data;
    var rec := ToRecord(pid.value, url, data, accepts);
    if rec.None? {
      result := Rejected(InternalError);
      return;
    }
    var list := recents;
    if |list| >= maxRecent {
      if list == [] {
        result := Rejected(InternalError);
        return;
      }
      list := list[1..];
    }
    list := list + [rec.value];
    store := users[user := users[user].(recentSearches := list)];
    result := Analyzed(pid.value, data.(infoDocs := None));
  }

  /** A cache hit answers with the first stored entry for the product, whatever the
      URL's scheme, and writes nothing. */
  lemma CacheHitIsPure<Sent, Summ>(users: Users<Sent, Summ>, user: string, body: Body, svc: SP.Services<Sent, Summ>,
                                   accepts: SP.Data<Sent, Summ> -> bool, maxRecent: int, i: nat)
    requires Truthy(Get(body, "url")) && user in users
    requires ExtractProductId(body["url"]).Some?
    requires var recents := users[user].recentSearches;
      i < |recents| && recents[i].productId == ExtractProductId(body["url"]).value &&
      forall j :: 0 <= j < i ==> recents[j].productId != recents[i].productId
    ensures var s := users[user].recentSearches[i];
      SearchSpec(users, user, body, svc, accepts, maxRecent) ==
      (Cached(ProductView(s.productId, s.url, s.productDetails, s.reviewSummary, s.sentimentSummary)), users)
  {
    var recents := users[user].recentSearches;
    var m := FirstMatch(recents, recents[i].productId);
    assert m == Some(i);
  }

  /** The scheme is checked only on a cache miss, and before the pipeline runs. */
  lemma BadSchemeRejectedOnMiss<Sent, Summ>(users: Users<Sent, Summ>, user: string, body: Body, svc: SP.Services<Sent, Summ>,
                                            accepts: SP.Data<Sent, Summ> -> bool, maxRecent: int)
    requires Truthy(Get(body, "url")) && user in users
    requires ExtractProductId(body["url"]).Some? && !HasWebScheme(body["url"])
    ensures var pid := ExtractProductId(body["url"]).value;
      var r := SearchSpec(users, user, body, svc, accepts, maxRecent);
      r.1 == users &&
      (r.0 == Rejected(HttpError(400, "Invalid URL format")) <==>
        forall j :: 0 <= j < |users[user].recentSearches| ==> users[user].recentSearches[j].productId != pid)
  {
  }

  /** A pipeline failure is answered unchanged and leaves the store alone. */
  lemma PipelineFailureStoresNothing<Sent, Summ>(users: Users<Sent, Summ>, user: string, body: Body, svc: SP.Services<Sent, Summ>,
                                                 accepts: SP.Data<Sent, Summ> -> bool, maxRecent: int)
    requires SearchSpec(users, user, body, svc, accepts, maxRecent).0.PipelineFailed?
    ensures var r := SearchSpec(users, user, body, svc, accepts, maxRecent);
      r.1 == users && r.0.status == 400 && r.0.response.Failure? &&
      r.0.response == SP.Outcome(body["url"], SP.Initial(body["url"]), svc).response
  {
  }

  /** A fresh analysis answers with the pipeline's record, its product id and url, and no
      chunks; the store changes only for this user, whose list gains the new record at
      its tail, losing the oldest entry when full. */
  lemma AnalyzedStoresRecord<Sent, Summ>(users: Users<Sent, Summ>, user: string, body: Body, svc: SP.Services<Sent, Summ>,
                                         accepts: SP.Data<Sent, Summ> -> bool, maxRecent: int)
    requires SearchSpec(users, user, body, svc, accepts, maxRecent).0.Analyzed?
    ensures var r := SearchSpec(users, user, body, svc, accepts, maxRecent);
      var url := body["url"];
      var run := SP.Outcome(url, SP.Initial(url), svc);
      var old_ := users[user].recentSearches;
      var new_ := r.1[user].recentSearches;
      user in users && Some(r.0.productId) == ExtractProductId(url) &&
      run.status == 200 && r.0.data == run.final.(infoDocs := None) &&
      r.0.data.infoDocs.None? && r.0.data.url == url &&
      r.1.Keys == users.Keys && (forall u :: u in users && u != user ==> r.1[u] == users[u]) &&
      r.1[user].password == users[user].password &&
      ToRecord(r.0.productId, url, run.final, accepts).Some? &&
      new_ == (if |old_| >= maxRecent then old_[1..] else old_) + [ToRecord(r.0.productId, url, run.final, accepts).value]
  {
    var url := body["url"];
    SP.SuccessCarriesEverything(url, svc);
  }

  /** Search keeps every list within a positive bound. */
  lemma SearchKeepsBound<Sent, Summ>(users: Users<Sent, Summ>, user: string, body: Body, svc: SP.Services<Sent, Summ>,
                                     accepts: SP.Data<Sent, Summ> -> bool, maxRecent: int)
    requires 1 <= maxRecent && Bounded(users, maxRecent)
    ensures Bounded(SearchSpec(users, user, body, svc, accepts, maxRecent).1, maxRecent)
  {
    var r := SearchSpec(users, user, body, svc, accepts, maxRecent);
    if r.0.Analyzed? {
      AnalyzedStoresRecord(users, user, body, svc, accepts, maxRecent);
    }
  }

  // ---------------------------------------------------------------------------
  // Delete and lookup

  /** The entries whose product id differs from `pid`, in order. */
  function Without<Sent, Summ>(l: seq<RecentSearch<Sent, Summ>>, pid: string): (r: seq<RecentSearch<Sent, Summ>>)
    ensures |r| <= |l|
    ensures forall j :: 0 <= j < |r| ==> r[j].productId != pid
    ensures forall j :: 0 <= j < |r| ==> r[j] in l
    ensures forall j :: 0 <= j < |l| && l[j].productId != pid ==> l[j] in r
  {
    if l == [] then []
    else (if l[0].productId == pid then [] else [l[0]]) + Without(l[1..], pid)
  }

  /** The filter distributes over concatenation, so the kept entries stay in order. */
  lemma {:induction false} WithoutAppend<Sent, Summ>(a: seq<RecentSearch<Sent, Summ>>, b: seq<RecentSearch<Sent, Summ>>, pid: string)
    ensures Without(a + b, pid) == Without(a, pid) + Without(b, pid)
  {
    if a == [] {
      assert a + b == b;
    } else {
      assert (a + b)[1..] == a[1..] + b;
      WithoutAppend(a[1..], b, pid);
    }
  }

  /** `delete_product`; every inner error is rewritten by the outer handler. */
  function Delete<Sent, Summ>(users: Users<Sent, Summ>, user: string, body: Body): (r: (Result<string>, Users<Sent, Summ>))
    ensures r.0.Err? ==> r.1 == users && r.0.error.status == 400
    ensures !Truthy(Get(body, "product_id")) ==> r.0.Err?
    ensures r.0.Ok? ==> user in users && r.1 == users[user := users[user].(recentSearches := Without(users[user].recentSearches, body["product_id"]))]
    ensures (|body| > 0 && Truthy(Get(body, "product_id")) && user in users) ==> r.0 == Ok("Product deleted successfully")
  {
    if |body| == 0 then (Err(Rewrapped(NoInput)), users)
    else if !Truthy(Get(body, "product_id")) then (Err(Rewrapped(NoProductId)), users)
    else if user !in users then (Err(Rewrapped(UserNotFound)), users)
    else
      var doc := users[user];
      (Ok("Product deleted successfully"), users[user := doc.(recentSearches := Without(doc.recentSearches, body["product_id"]))])
  }

  /** The messages the rejected deletions carry. */
  lemma DeleteErrors<Sent, Summ>(users: Users<Sent, Summ>, user: string, body: Body)
    ensures |body| == 0 ==> Delete(users, user, body).0 == Err(HttpError(400, "400: " + NoInput.detail))
    ensures (|body| > 0 && !Truthy(Get(body, "product_id"))) ==>
      Delete(users, user, body).0 == Err(HttpError(400, "400: " + NoProductId.detail))
    ensures (|body| > 0 && Truthy(Get(body, "product_id")) && user !in users) ==>
      Delete(users, user, body).0 == Err(HttpError(400, "404: " + UserNotFound.detail))
  {
    RewrappedNoInput();
    RewrappedNoProductId();
    RewrappedUserNotFound();
  }

  /** Deleting keeps the bound. */
  lemma DeleteKeepsBound<Sent, Summ>(users: Users<Sent, Summ>, user: string, body: Body, max: int)
    requires Bounded(users, max)
    ensures Bounded(Delete(users, user, body).1, max)
  {
  }

  /** Answer of `get_product` when the user exists. */
  datatype Lookup<Sent, Summ> = Found(view: ProductView<Sent, Summ>) | NotFound

  /** `get_product`: the first stored entry for the product; no match is an ordinary
      answer (message "Product not found", status 200); every raised error becomes 500. */
  function GetProduct<Sent, Summ>(users: Users<Sent, Summ>, user: string, pid: string): (r: Result<Lookup<Sent, Summ>>)
    ensures r.Err? <==> user !in users
    ensures r.Err? ==> r.error == InternalError
    ensures r.Ok? && r.value.NotFound? ==> forall j :: 0 <= j < |users[user].recentSearches| ==> users[user].recentSearches[j].productId != pid
    ensures r.Ok? && r.value.Found? ==> exists i :: (0 <= i < |users[user].recentSearches| &&
      r.value.view == View(users[user].recentSearches[i]) && users[user].recentSearches[i].productId == pid &&
      forall j :: 0 <= j < i ==> users[user].recentSearches[j].productId != pid)
  {
    if user !in users then Err(InternalError)
    else match FirstMatch(users[user].recentSearches, pid)
      case None => Ok(NotFound)
      case Some(i) => Ok(Found(View(users[user].recentSearches[i])))
  }

  // ---------------------------------------------------------------------------
  // Login, the dashboard list and registration

  datatype LoginReply = LoginReply(accessToken: string, username: string, recents: seq<Brief>)

  /** `login`: `checkPassword(hash, password)` is the password-hash check and
      `encode` the token signer; `now` is the current time in seconds. */
  method Login<Sent, Summ>(users: Users<Sent, Summ>, body: Body, checkPassword: (string, string) -> bool,
                           now: int, encode: JwtAuth.Claims -> string) returns (r: Result<LoginReply>)
    ensures |body| == 0 ==> r == Err(HttpError(400, "400: " + NoInput.detail))
    ensures |body| > 0 ==> (r.Ok? <==> (Get(body, "username").Some? && body["username"] in users &&
      checkPassword(users[body["username"]].password, Get(body, "password").GetOr(""))))
    ensures (|body| > 0 && r.Err?) ==> r.error == HttpError(400, "401: " + BadCredentials.detail)
    ensures r.Ok? ==> var u := body["username"];
      r.value.accessToken == JwtAuth.CreateAccessToken(u, now, encode) && r.value.username == u &&
      |r.value.recents| == |users[u].recentSearches| &&
      forall i :: 0 <= i < |users[u].recentSearches| ==> r.value.recents[i] == BriefOf(users[u].recentSearches[i])
  {
    RewrappedNoInput();
    RewrappedBadCredentials();
    if |body| == 0 {
      return Err(Rewrapped(NoInput));
    }
    var name := Get(body, "username");
    if name.None? || name.value !in users {
      return Err(Rewrapped(BadCredentials));
    }
    var doc := users[name.value];
    if !checkPassword(doc.password, Get(body, "password").GetOr("")) {
      return Err(Rewrapped(BadCredentials));
    }
    var token := JwtAuth.CreateAccessToken(name.value, now, encode);
    var recents := Briefs(doc.recentSearches);
    r := Ok(LoginReply(token, name.value, recents));
  }

  /** `get_products` (the dashboard list). */
  method MySearches<Sent, Summ>(users: Users<Sent, Summ>, user: string) returns (r: Result<seq<Brief>>)
    ensures r.Err? <==> user !in users
    ensures r.Err? ==> r.error == HttpError(400, "404: " + UserNotFound.detail)
    ensures r.Ok? ==> (|r.value| == |users[user].recentSearches| &&
      forall i :: 0 <= i < |r.value| ==> r.value[i] == BriefOf(users[user].recentSearches[i]))
  {
    RewrappedUserNotFound();
    if user !in users {
      return Err(Rewrapped(UserNotFound));
    }
    var products := Briefs(users[user].recentSearches);
    r := Ok(products);
  }

  /** `register`: `hash` is the password hashing the user schema applies. A missing key
      raises `KeyError`, whose text is the quoted key. */
  function Register<Sent, Summ>(users: Users<Sent, Summ>, body: Body, hash: string -> string): (r: (Result<string>, Users<Sent, Summ>))
    ensures r.0.Err? ==> r.1 == users && r.0.error.status == 400
    ensures r.0.Ok? ==> ("username" in body && "password" in body && body["username"] !in users &&
      r.1 == users[body["username"] := UserDoc(hash(body["password"]), [])])
    ensures ("username" in body && "password" in body && body["username"] !in users) ==>
      r.0 == Ok("User registered successfully")
  {
    if |body| == 0 then (Err(Rewrapped(NoInput)), users)
    else if Get(body, "username").Some? && body["username"] in users then
      (Err(Rewrapped(Duplicate)), users)
    else if "username" !in body then (Err(HttpError(400, "'username'")), users)
    else if "password" !in body then (Err(HttpError(400, "'password'")), users)
    else (Ok("User registered successfully"), users[body["username"] := UserDoc(hash(body["password"]), [])])
  }

  /** A taken user name is answered with 400 and the detail "409: Username already exists". */
  lemma RegisterDuplicate<Sent, Summ>(users: Users<Sent, Summ>, body: Body, hash: string -> string)
    requires "username" in body && body["username"] in users
    ensures Register(users, body, hash) == (Err(HttpError(400, "409: " + Duplicate.detail)), users)
  {
    RewrappedDuplicate();
  }

  /** Registration adds an empty list, so it keeps any bound that is not negative. */
  lemma RegisterKeepsBound<Sent, Summ>(users: Users<Sent, Summ>, body: Body, hash: string -> string, max: int)
    requires 0 <= max && Bounded(users, max)
    ensures Bounded(Register(users, body, hash).1, max)
  {
  }

  // ---------------------------------------------------------------------------
  // The question endpoint

  /** `query`: every failure, including an empty answer, is reported as 500. A body
      without "query" or "product_id" always fails. */
  function Query<Sent, Summ>(users: Users<Sent, Summ>, user: string, body: Body, svc: QueryHandler.Services): (r: Result<string>)
    ensures r.Err? ==> r.error == InternalError
    ensures r.Ok? ==> r.value != []
  {
    if |body| == 0 || "query" !in body || "product_id" !in body then Err(InternalError)
    else
      var lookup := Returned(if user in users then Some(users[user].recentSearches) else None);
      match QueryHandler.HandleQuery(body["query"], body["product_id"], lookup, svc)
      case Err(_) => Err(InternalError)
      case Ok(answer) => if answer == [] then Err(InternalError) else Ok(answer)
  }

  /** A non-empty answer from the query handler is passed through unchanged. */
  lemma QueryPassesAnswer<Sent, Summ>(users: Users<Sent, Summ>, user: string, body: Body, svc: QueryHandler.Services)
    requires "query" in body && "product_id" in body
    ensures var lookup := Returned(if user in users then Some(users[user].recentSearches) else None);
      var h := QueryHandler.HandleQuery(body["query"], body["product_id"], lookup, svc);
      Query(users, user, body, svc).Ok? <==> (h.Ok? && h.value != [])
    ensures var lookup := Returned(if user in users then Some(users[user].recentSearches) else None);
      var h := QueryHandler.HandleQuery(body["query"], body["product_id"], lookup, svc);
      Query(users, user, body, svc).Ok? ==> Query(users, user, body, svc).value == h.value
  {
  }

  /** A product stored with one to six chunks cannot be asked about: the search as written
      fails, and the endpoint answers 500 "Internal server error". */
  lemma QueryFailsOnFewDocs<Sent, Summ>(users: Users<Sent, Summ>, user: string, body: Body, svc: QueryHandler.Services, i: nat)
    requires "query" in body && "product_id" in body && user in users
    requires var recent := users[user].recentSearches;
      i < |recent| && recent[i].productId == body["product_id"] &&
      (forall j :: 0 <= j < i ==> recent[j].productId != body["product_id"]) &&
      1 <= |recent[i].infoDocs| < QueryHandler.TopK
    ensures Query(users, user, body, svc) == Err(InternalError)
  {
    QueryHandler.HandleQueryFailsOnFewDocs(body["query"], body["product_id"], users[user].recentSearches, i, svc);
  }
}
