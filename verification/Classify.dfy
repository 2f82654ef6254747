/** Error classification over error trees of any size (errors.go). */
module Classify {
  import opened Common

  datatype Sentinel = AuthRequired | Forbidden | RateLimited | NotFound | APIUnavailable

  /**
    The response attached to a go-github error: its status, the request it answers, and the
    X-RateLimit-Remaining header where it is a nonnegative integer.
   */
  datatype Response = Response(status: int, request: Option<(string, string)>, remaining: Option<nat>)

  /** The dynamic type of one error value, as far as ClassifyError asks about it. */
  datatype Kind =
    | Plain(id: int)                     // any other error, fmt.Errorf and errors.Join wrappers included
    | SentinelError(s: Sentinel)
    | Status(s: Sentinel, status: int, verb: string, url: string)   // *StatusError
    | RateLimitError(resp: Option<Response>)                        // *github.RateLimitError
    | AbuseError(resp: Option<Response>)                            // *github.AbuseRateLimitError
    | ResponseError(resp: Option<Response>)                         // *github.ErrorResponse
    | UrlError(op: string, url: string)                             // *url.Error
    | NetError                                                      // a net.Error or *net.OpError

  /** An error and what it unwraps to, in order. */
  datatype Err = Node(kind: Kind, kids: seq<Err>)

  /** A search by type, as errors.AsType makes it, or for a sentinel, as errors.Is does. */
  datatype Query = IsStatus | IsRateLimit | IsAbuse | IsResponse | IsUrl | IsNet | Is(s: Sentinel)

  predicate Matches(q: Query, k: Kind) {
    match q
    case IsStatus => k.Status?
    case IsRateLimit => k.RateLimitError?
    case IsAbuse => k.AbuseError?
    case IsResponse => k.ResponseError?
    case IsUrl => k.UrlError?
    case IsNet => k.NetError? || k.UrlError?
    case Is(s) => k == SentinelError(s)
  }

  /** errors.AsType and errors.Is: the first match in pre-order, depth first. */
  function Find(q: Query, e: Err): Option<Err>
    decreases e, 0
  {
    if Matches(q, e.kind) then Some(e) else FindAmong(q, e.kids)
  }

  function FindAmong(q: Query, es: seq<Err>): Option<Err>
    decreases es, 1
  {
    if es == [] then None
    else
      var first := Find(q, es[0]);
      if first.Some? then first else FindAmong(q, es[1..])
  }

  /** e occurs in the tree t. */
  predicate Within(e: Err, t: Err)
    decreases t
  {
    e == t || exists i :: 0 <= i < |t.kids| && Within(e, t.kids[i])
  }

  // --------------------------------------------------------- classification

  /** StatusError.Unwrap exposes the sentinel and the underlying error (errors.go:77-79). */
  function MakeStatus(s: Sentinel, status: int, verb: string, url: string, err: Err): Err {
    Node(Status(s, status, verb, url), [Node(SentinelError(s), []), err])
  }

  function Verb(request: Option<(string, string)>): string {
    if request.Some? then request.value.0 else ""
  }

  function Url(request: Option<(string, string)>): string {
    if request.Some? then request.value.1 else ""
  }

  /** classifyRateLimit (errors.go:134-149). */
  function ClassifyRateLimit(resp: Option<Response>, cause: Err): Err {
    match resp
    case None => MakeStatus(RateLimited, 0, "", "", cause)
    case Some(r) => MakeStatus(RateLimited, r.status, Verb(r.request), Url(r.request), cause)
  }

  /** The sentinel of a response, None for a status no sentinel stands for (errors.go:164-183). */
  function SentinelOf(r: Response): Option<Sentinel> {
    if r.status == 401 then Some(AuthRequired)
    else if r.status == 404 then Some(NotFound)
    else if r.status == 429 then Some(RateLimited)
    else if r.status == 403 then Some(if r.remaining == Some(0) then RateLimited else Forbidden)
    else if r.status >= 500 then Some(APIUnavailable)
    else None
  }

  /** classifyResponseError (errors.go:151-186). */
  function ClassifyResponse(r: Response, ghErr: Err): Err {
    match SentinelOf(r)
    case None => ghErr
    case Some(s) => MakeStatus(s, r.status, Verb(r.request), Url(r.request), ghErr)
  }

  /** ClassifyError (errors.go:89-128) of a non-nil error. */
  function Classify(e: Err): Err {
    if Find(IsStatus, e).Some? then e
    else if Find(IsRateLimit, e).Some? then
      FindMatches(IsRateLimit, e);
      ClassifyRateLimit(Find(IsRateLimit, e).value.kind.resp, Find(IsRateLimit, e).value)
    else if Find(IsAbuse, e).Some? then
      FindMatches(IsAbuse, e);
      ClassifyRateLimit(Find(IsAbuse, e).value.kind.resp, Find(IsAbuse, e).value)
    else if HasResponse(e) then
      ClassifyResponse(Find(IsResponse, e).value.kind.resp.value, Find(IsResponse, e).value)
    else if Find(IsUrl, e).Some? then
      FindMatches(IsUrl, e);
      var u := Find(IsUrl, e).value.kind;
      MakeStatus(APIUnavailable, 0, u.op, u.url, e)
    else if Find(IsNet, e).Some? then MakeStatus(APIUnavailable, 0, "", "", e)
    else e
  }

  /** The first *github.ErrorResponse of the tree carries a response. */
  predicate HasResponse(e: Err) {
    Find(IsResponse, e).Some? && Find(IsResponse, e).value.kind.ResponseError? && Find(IsResponse, e).value.kind.resp.Some?
  }

  // ------------------------------------------------------------------ search

  lemma {:induction false} FindMatches(q: Query, e: Err)
    ensures Find(q, e).Some? ==> Matches(q, Find(q, e).value.kind) && Within(Find(q, e).value, e)
    decreases e, 0
  {
    if !Matches(q, e.kind) && Find(q, e).Some? {
      var i := FindAmongWhere(q, e.kids);
      FindMatches(q, e.kids[i]);
    }
  }

  /** Where the search among siblings succeeds. */
  lemma {:induction false} FindAmongWhere(q: Query, es: seq<Err>) returns (i: nat)
    requires FindAmong(q, es).Some?
    ensures i < |es| && FindAmong(q, es) == Find(q, es[i])
    decreases |es|
  {
    if Find(q, es[0]).Some? {
      i := 0;
    } else {
      i := FindAmongWhere(q, es[1..]);
      i := i + 1;
    }
  }

  lemma {:induction false} FindAmongNone(q: Query, es: seq<Err>)
    ensures FindAmong(q, es).None? <==> forall i :: 0 <= i < |es| ==> Find(q, es[i]).None?
    decreases |es|
  {
    if es != [] {
      FindAmongNone(q, es[1..]);
      assert forall i :: 0 < i < |es| ==> es[i] == es[1..][i - 1];
    }
  }

  /** What a search does not find in a tree it does not find in any part of it. */
  lemma {:induction false} AbsentBelow(q: Query, e: Err, t: Err)
    requires Within(e, t) && Find(q, t).None?
    ensures Find(q, e).None?
    decreases t
  {
    if e != t {
      var i :| 0 <= i < |t.kids| && Within(e, t.kids[i]);
      FindAmongNone(q, t.kids);
      AbsentBelow(q, e, t.kids[i]);
    }
  }

  /** Searching a fresh StatusError looks at it, at its sentinel, then beneath it. */
  lemma FindInStatus(q: Query, s: Sentinel, status: int, verb: string, url: string, err: Err)
    ensures Find(q, MakeStatus(s, status, verb, url, err)) ==
            if q.IsStatus? then Some(MakeStatus(s, status, verb, url, err))
            else if q == Is(s) then Some(Node(SentinelError(s), [])) else Find(q, err)
  {
    var leaf := Node(SentinelError(s), []);
    assert [leaf, err][1..] == [err];
    assert [err][1..] == [];
    assert Find(q, leaf) == if q == Is(s) then Some(leaf) else None;
    assert FindAmong(q, [err]) == Find(q, err);
  }

  /** All errors of a tree in pre-order, as the documentation of package errors has it. */
  function Preorder(e: Err): seq<Err>
    decreases e, 0
  {
    [e] + PreorderAll(e.kids)
  }

  function PreorderAll(es: seq<Err>): seq<Err>
    decreases es, 1
  {
    if es == [] then [] else Preorder(es[0]) + PreorderAll(es[1..])
  }

  /** The first element a search accepts. */
  function FirstMatch(q: Query, es: seq<Err>): Option<Err> {
    if es == [] then None else if Matches(q, es[0].kind) then Some(es[0]) else FirstMatch(q, es[1..])
  }

  lemma {:induction false} FirstMatchConcat(q: Query, a: seq<Err>, b: seq<Err>)
    ensures FirstMatch(q, a + b) == if FirstMatch(q, a).Some? then FirstMatch(q, a) else FirstMatch(q, b)
  {
    if a == [] {
      assert a + b == b;
    } else {
      FirstMatchConcat(q, a[1..], b);
      assert (a + b)[1..] == a[1..] + b;
    }
  }

  /** The recursive search finds the first match in pre-order. */
  lemma {:induction false} FindIsFirst(q: Query, e: Err)
    ensures Find(q, e) == FirstMatch(q, Preorder(e))
    decreases e, 0
  {
    FindAmongIsFirst(q, e.kids);
    FirstMatchConcat(q, [e], PreorderAll(e.kids));
    assert [e][1..] == [];
  }

  lemma {:induction false} FindAmongIsFirst(q: Query, es: seq<Err>)
    ensures FindAmong(q, es) == FirstMatch(q, PreorderAll(es))
    decreases es, 1
  {
    if es != [] {
      FindIsFirst(q, es[0]);
      FindAmongIsFirst(q, es[1..]);
      FirstMatchConcat(q, Preorder(es[0]), PreorderAll(es[1..]));
    }
  }

  // ------------------------------------------------------------ the theorems

  /** What decides the classification: the match of highest priority in the tree. */
  datatype Decision =
    | Already
    | ByRateLimit(matched: Err)
    | ByResponse(matched: Err)
    | ByUrl(matched: Err)
    | ByNet
    | Nothing

  function Decide(e: Err): Decision {
    if Find(IsStatus, e).Some? then Already
    else if Find(IsRateLimit, e).Some? then ByRateLimit(Find(IsRateLimit, e).value)
    else if Find(IsAbuse, e).Some? then ByRateLimit(Find(IsAbuse, e).value)
    else if HasResponse(e) then ByResponse(Find(IsResponse, e).value)
    else if Find(IsUrl, e).Some? then ByUrl(Find(IsUrl, e).value)
    else if Find(IsNet, e).Some? then ByNet
    else Nothing
  }

  /** The error under the new StatusError, or the result itself when none is made. */
  function Kept(e: Err): Err {
    match Decide(e)
    case ByRateLimit(m) => m
    case ByResponse(m) => m
    case _ => e
  }

  /** The sentinel of the result, as a function of the decision alone. */
  function Verdict(d: Decision): Option<Sentinel> {
    match d
    case ByRateLimit(_) => Some(RateLimited)
    case ByResponse(m) => if m.kind.ResponseError? && m.kind.resp.Some? then SentinelOf(m.kind.resp.value) else None
    case ByUrl(_) => Some(APIUnavailable)
    case ByNet => Some(APIUnavailable)
    case _ => None
  }

  /**
    The result is either the kept error itself or a StatusError over it, with a sentinel that
    depends on the highest-priority match only.
   */
  lemma ClassifyForm(e: Err)
    ensures Find(IsStatus, e).Some? ==> Classify(e) == e
    ensures Find(IsStatus, e).None? && Verdict(Decide(e)).None? ==> Classify(e) == Kept(e)
    ensures Find(IsStatus, e).None? && Verdict(Decide(e)).Some? ==>
              && Classify(e).kind.Status? && Classify(e).kind.s == Verdict(Decide(e)).value
              && Classify(e) == MakeStatus(Classify(e).kind.s, Classify(e).kind.status, Classify(e).kind.verb, Classify(e).kind.url, Kept(e))
    ensures Within(Kept(e), e)
  {
    FindMatches(IsRateLimit, e);
    FindMatches(IsAbuse, e);
    FindMatches(IsResponse, e);
    FindMatches(IsUrl, e);
  }

  function ResponseOf(k: Kind): Option<Response> {
    match k
    case RateLimitError(resp) => resp
    case AbuseError(resp) => resp
    case ResponseError(resp) => resp
    case _ => None
  }

  /** A StatusError over this go-github error, with the status of its response and the method and URL that one answers. */
  predicate Reports(c: Err, found: Err) {
    && c.kind.Status? && |c.kids| == 2 && c.kids[1] == found
    && match ResponseOf(found.kind)
       case None => c.kind.status == 0 && c.kind.verb == "" && c.kind.url == ""
       case Some(r) =>
         && c.kind.status == r.status
         && (r.request.Some? ==> c.kind.verb == r.request.value.0 && c.kind.url == r.request.value.1)
         && (r.request.None? ==> c.kind.verb == "" && c.kind.url == "")
  }

  /** Two errors with the same decision get the same sentinel, or both none. */
  lemma SentinelDependsOnDecision(e: Err, f: Err)
    requires Find(IsStatus, e).None? && Find(IsStatus, f).None? && Decide(e) == Decide(f)
    ensures Find(IsStatus, Classify(e)).Some? <==> Find(IsStatus, Classify(f)).Some?
    ensures Find(IsStatus, Classify(e)).Some? ==>
              Classify(e).kind.Status? && Classify(f).kind.Status? && Classify(e).kind.s == Classify(f).kind.s
  {
    ClassifyForm(e);
    ClassifyForm(f);
    AbsentBelow(IsStatus, Kept(e), e);
    AbsentBelow(IsStatus, Kept(f), f);
  }

  /** Classification is idempotent. */
  lemma Idempotent(e: Err)
    ensures Classify(Classify(e)) == Classify(e)
  {
    ClassifyForm(e);
    if Find(IsStatus, e).None? && Verdict(Decide(e)).None? && Decide(e).ByResponse? {
      UnsentinelledResponse(e);
    }
  }

  /** An ErrorResponse that no sentinel stands for is returned bare, and again when classified again. */
  lemma UnsentinelledResponse(e: Err)
    requires Decide(e).ByResponse? && Verdict(Decide(e)).None?
    ensures Classify(Kept(e)) == Kept(e)
  {
    FindMatches(IsResponse, e);
    AbsentBelow(IsStatus, Kept(e), e);
    AbsentBelow(IsRateLimit, Kept(e), e);
    AbsentBelow(IsAbuse, Kept(e), e);
  }

  /**
    The matched SDK error and everything beneath it stays findable: any search by type, other than
    for the StatusError itself, finds in the result exactly what it finds in the kept error.
   */
  lemma KeptStaysFindable(e: Err, q: Query)
    requires !q.IsStatus? && !q.Is?
    ensures Find(q, Classify(e)) == Find(q, Kept(e))
    ensures Within(Kept(e), Classify(e))
  {
    ClassifyForm(e);
    var c := Classify(e);
    if Find(IsStatus, e).None? && Verdict(Decide(e)).Some? {
      FindInStatus(q, c.kind.s, c.kind.status, c.kind.verb, c.kind.url, Kept(e));
      assert c.kids[1] == Kept(e);
    }
  }

  /** The dedicated type that decided is what the corresponding search returns on the result. */
  lemma MatchedIsFound(e: Err)
    ensures Decide(e).ByResponse? ==> Find(IsResponse, Classify(e)) == Some(Decide(e).matched)
    ensures Decide(e).ByRateLimit? ==>
              Find(IsRateLimit, Classify(e)) == Some(Decide(e).matched) || Find(IsAbuse, Classify(e)) == Some(Decide(e).matched)
    ensures Decide(e).ByUrl? ==> Find(IsUrl, Classify(e)) == Some(Decide(e).matched)
  {
    FindMatches(IsRateLimit, e);
    FindMatches(IsAbuse, e);
    FindMatches(IsResponse, e);
    KeptStaysFindable(e, IsRateLimit);
    KeptStaysFindable(e, IsAbuse);
    KeptStaysFindable(e, IsResponse);
    KeptStaysFindable(e, IsUrl);
  }

  // --------------------------------------------- what errors.Is then finds

  /** An exhausted budget or a secondary limit, reported by go-github's dedicated types. */
  predicate Limited(e: Err) {
    Find(IsRateLimit, e).Some? || Find(IsAbuse, e).Some?
  }

  /** The response of the first *github.ErrorResponse in the tree. */
  function FirstResponse(e: Err): Option<Response> {
    match Find(IsResponse, e)
    case Some(Node(ResponseError(resp), _)) => resp
    case _ => None
  }

  /** What the comments on the sentinels say they mark (errors.go:18-40), on a whole error tree. */
  predicate Marks(s: Sentinel, e: Err) {
    var r := FirstResponse(e);
    var exhausted := r.Some? && r.value.remaining == Some(0);
    match s
    case RateLimited => Limited(e) || (r.Some? && (r.value.status == 429 || (r.value.status == 403 && exhausted)))
    case Forbidden => !Limited(e) && r.Some? && r.value.status == 403 && !exhausted
    case AuthRequired => !Limited(e) && r.Some? && r.value.status == 401
    case NotFound => !Limited(e) && r.Some? && r.value.status == 404
    case APIUnavailable => !Limited(e) && if r.Some? then r.value.status >= 500 else Find(IsNet, e).Some?
  }

  /**
    What the StatusError says of the failed request, in terms of what the searches find: the
    status, method and URL of the response of a rate-limit error, an abuse error or else an
    ErrorResponse, in this order; without these, operation and URL of a *url.Error; nothing for
    any other net.Error.  The error beneath it is the one found, or the whole tree; a response of
    no category is returned bare, and what matches nothing as it is.
   */
  lemma ContextReported(e: Err)
    requires Find(IsStatus, e).None?
    ensures Find(IsRateLimit, e).Some? ==> Reports(Classify(e), Find(IsRateLimit, e).value)
    ensures Find(IsRateLimit, e).None? && Find(IsAbuse, e).Some? ==> Reports(Classify(e), Find(IsAbuse, e).value)
    ensures !Limited(e) && FirstResponse(e).Some? ==>
              var status := FirstResponse(e).value.status;
              if status >= 500 || status in {401, 403, 404, 429} then Reports(Classify(e), Find(IsResponse, e).value)
              else Classify(e) == Find(IsResponse, e).value
    ensures !Limited(e) && FirstResponse(e).None? && Find(IsUrl, e).Some? ==>
              var u := Find(IsUrl, e).value.kind;
              && u.UrlError? && Classify(e).kind == Status(APIUnavailable, 0, u.op, u.url)
              && |Classify(e).kids| == 2 && Classify(e).kids[1] == e
    ensures !Limited(e) && FirstResponse(e).None? && Find(IsUrl, e).None? && Find(IsNet, e).Some? ==>
              Classify(e).kind == Status(APIUnavailable, 0, "", "") && |Classify(e).kids| == 2 && Classify(e).kids[1] == e
    ensures !Limited(e) && FirstResponse(e).None? && Find(IsNet, e).None? ==> Classify(e) == e
  {
    FindMatches(IsRateLimit, e);
    FindMatches(IsAbuse, e);
    FindMatches(IsResponse, e);
    FindMatches(IsUrl, e);
    if Find(IsUrl, e).Some? {
      UrlIsNet(e);
    }
  }

  /** A *url.Error is a net.Error too, so a search for one finds something where a search for the other does. */
  lemma {:induction false} UrlIsNet(e: Err)
    requires Find(IsUrl, e).Some?
    ensures Find(IsNet, e).Some?
    decreases e
  {
    if !Matches(IsUrl, e.kind) && !Matches(IsNet, e.kind) {
      var i := FindAmongWhere(IsUrl, e.kids);
      UrlIsNet(e.kids[i]);
      FindAmongNone(IsNet, e.kids);
    }
  }

  lemma VerdictMarks(e: Err, s: Sentinel)
    requires Find(IsStatus, e).None?
    ensures Verdict(Decide(e)) == Some(s) <==> Marks(s, e)
  {
    FindMatches(IsResponse, e);
    if Find(IsUrl, e).Some? {
      UrlIsNet(e);
    }
  }

  /**
    For every tree without a StatusError and every sentinel, errors.Is finds that sentinel in the
    classified error exactly when the sentinel marks the tree, or the kept error held it already.
   */
  lemma SentinelExact(e: Err, s: Sentinel)
    requires Find(IsStatus, e).None?
    ensures Find(Is(s), Classify(e)).Some? <==> Marks(s, e) || Find(Is(s), Kept(e)).Some?
  {
    ClassifyForm(e);
    VerdictMarks(e, s);
    if Verdict(Decide(e)).Some? {
      var c := Classify(e);
      FindInStatus(Is(s), c.kind.s, c.kind.status, c.kind.verb, c.kind.url, Kept(e));
    }
  }

  /** No tree is marked by two sentinels, so errors of go-github are put under one at most. */
  lemma OneSentinel(e: Err, s: Sentinel, t: Sentinel)
    requires Find(IsStatus, e).None? && Find(Is(s), e).None? && Find(Is(t), e).None?
    requires Find(Is(s), Classify(e)).Some? && Find(Is(t), Classify(e)).Some?
    ensures s == t
  {
    ClassifyForm(e);
    SentinelExact(e, s);
    SentinelExact(e, t);
    AbsentBelow(Is(s), Kept(e), e);
    AbsentBelow(Is(t), Kept(e), e);
  }

  // ------------------------- "classifying never destroys information"

  /** A size that falls along Within, so that a tree is within itself only as the whole. */
  function Size(e: Err): nat
    decreases e, 0
  {
    1 + SizeAll(e.kids)
  }

  function SizeAll(es: seq<Err>): nat
    decreases es, 1
  {
    if es == [] then 0 else Size(es[0]) + SizeAll(es[1..])
  }

  lemma {:induction false} KidSmaller(es: seq<Err>, i: nat)
    requires i < |es|
    ensures Size(es[i]) <= SizeAll(es)
    decreases |es|
  {
    if i > 0 {
      KidSmaller(es[1..], i - 1);
    }
  }

  lemma {:induction false} WithinSize(e: Err, t: Err)
    requires Within(e, t)
    ensures Size(e) <= Size(t) && (e != t ==> Size(e) < Size(t))
    decreases t
  {
    if e != t {
      var i :| 0 <= i < |t.kids| && Within(e, t.kids[i]);
      WithinSize(e, t.kids[i]);
      KidSmaller(t.kids, i);
    }
  }

  /** The root of the tree is the go-github error that decides, or none does. */
  predicate DecidedAtRoot(e: Err) {
    if Find(IsStatus, e).Some? then true
    else if Find(IsRateLimit, e).Some? then e.kind.RateLimitError?
    else if Find(IsAbuse, e).Some? then e.kind.AbuseError?
    else FirstResponse(e).Some? ==> e.kind.ResponseError?
  }

  /** A search succeeds at the root exactly when the root matches; any other match is smaller. */
  lemma FoundAtRoot(q: Query, e: Err)
    requires Find(q, e).Some?
    ensures Find(q, e) == Some(e) <==> Matches(q, e.kind)
  {
    if !Matches(q, e.kind) {
      var i := FindAmongWhere(q, e.kids);
      FindMatches(q, e.kids[i]);
      WithinSize(Find(q, e).value, e.kids[i]);
      KidSmaller(e.kids, i);
    }
  }

  lemma KeptIsRoot(e: Err)
    ensures Kept(e) == e <==> DecidedAtRoot(e)
  {
    FindMatches(IsResponse, e);
    forall q: Query | Find(q, e).Some?
      ensures Find(q, e) == Some(e) <==> Matches(q, e.kind)
    {
      FoundAtRoot(q, e);
    }
  }

  /**
    The comment on StatusError (errors.go:42-44) says classifying never destroys information.
    The error that was passed in survives in the result exactly when no go-github error that
    decides lies strictly below its root: outer wrappers and joined siblings are dropped.
   */
  lemma InputSurvivesIff(e: Err)
    ensures Within(e, Classify(e)) <==> DecidedAtRoot(e)
  {
    KeptIsRoot(e);
    ClassifyForm(e);
    KeptStaysFindable(e, IsUrl);
    if Within(e, Classify(e)) {
      WithinSize(Kept(e), e);
      if Classify(e) == Kept(e) {
        WithinSize(e, Kept(e));
      } else {
        SurvivesBelow(e);
      }
    }
  }

  /**
    Errors that match no category are returned unchanged (errors.go:87-88): when no sentinel
    marks the tree, exactly if a response that decided is its root.
   */
  lemma UnmarkedUnchangedIff(e: Err)
    requires Find(IsStatus, e).None? && forall s :: !Marks(s, e)
    ensures Classify(e) == e <==> DecidedAtRoot(e)
  {
    ClassifyForm(e);
    KeptIsRoot(e);
    forall s
      ensures Verdict(Decide(e)) != Some(s)
    {
      VerdictMarks(e, s);
    }
  }

  lemma SurvivesBelow(e: Err)
    requires Within(e, Classify(e)) && Find(IsStatus, e).None? && Verdict(Decide(e)).Some?
    ensures Size(e) <= Size(Kept(e))
  {
    ClassifyForm(e);
    var c := Classify(e);
    assert e != c;
    var i :| 0 <= i < |c.kids| && Within(e, c.kids[i]);
    WithinSize(e, c.kids[i]);
    if i == 0 {
      LeafDecidesNothing(e, c.kids[0]);
    }
  }

  lemma LeafDecidesNothing(e: Err, leaf: Err)
    requires leaf.kind.SentinelError? && leaf.kids == [] && Within(e, leaf)
    ensures Verdict(Decide(e)).None?
  {
    assert e == leaf;
    forall q: Query | !q.Is?
      ensures Find(q, leaf).None?
    {
    }
  }
}
