// The screen wake-lock controller (web/lib/useWakeLock.ts) among the browser's
// callbacks: grants, rejections and release events may come in any order, and
// the page may change its mind in between.
module WakeLock {
  import opened Topology

  // A request is named by its token; so is the sentinel it is granted.
  type Token = nat

  // The controller's variables and what the browser knows: requests not yet
  // settled, sentinels granted, asked to release, and released (their event
  // has fired), and what was last reported.
  datatype State = State(supported: bool, wanted: bool, sentinel: Option<Token>, requestToken: Token, listening: bool,
                         pending: set<Token>, granted: set<Token>, rejected: set<Token>,
                         asked: set<Token>, released: set<Token>, report: Option<bool>)

  datatype Event = SetWanted(next: bool)
                 | VisibilityChange(visible: bool)
                 | Grant(token: Token)
                 | Reject(token: Token)
                 | Release(sentinel: Token)
                 | Destroy

  function Start(supported: bool): State {
    State(supported, false, None, 0, true, {}, {}, {}, {}, {}, None)
  }

  function Requested(s: State): State {
    if !s.supported then s
    else s.(requestToken := s.requestToken + 1, pending := s.pending + {s.requestToken + 1})
  }

  // sentinel.release(): asks the browser; its event comes later.
  function Asked(s: State): State {
    if s.sentinel.None? then s else s.(asked := s.asked + {s.sentinel.value})
  }

  function Granted(s: State, t: Token): State {
    var s1 := s.(pending := s.pending - {t}, granted := s.granted + {t});
    if t != s.requestToken || !s.wanted then s1.(asked := s1.asked + {t})
    else s1.(sentinel := Some(t), report := Some(true))
  }

  function Rejected(s: State, t: Token): State {
    var s1 := s.(pending := s.pending - {t}, rejected := s.rejected + {t});
    if t == s.requestToken then s1.(report := Some(false)) else s1
  }

  function Released(s: State, x: Token): State {
    var s1 := s.(released := s.released + {x});
    if s.sentinel == Some(x) then s1.(sentinel := None, report := Some(false)) else s1
  }

  // An event that cannot happen changes nothing.
  function Step(s: State, e: Event): State {
    match e
    case SetWanted(next) =>
      if s.wanted == next then s
      else if next then Requested(s.(wanted := true)) else Asked(s.(wanted := false))
    case VisibilityChange(visible) =>
      if s.listening && visible && s.wanted && s.sentinel.None? then Requested(s) else s
    case Grant(t) => if t in s.pending then Granted(s, t) else s
    case Reject(t) => if t in s.pending then Rejected(s, t) else s
    case Release(x) => if x in s.granted && x !in s.released then Released(s, x) else s
    case Destroy => Asked(s.(listening := false, wanted := false))
  }

  function Run(s: State, events: seq<Event>): State {
    if events == [] then s else Step(Run(s, events[..|events| - 1]), events[|events| - 1])
  }

  // ------------------------------------------------------- the invariant

  // Asked to let go, or gone.
  predicate LettingGo(s: State, x: Token) { x in s.asked || x in s.released }

  ghost predicate Inv(s: State) {
    // every request is settled once
    && s.pending !! s.granted !! s.rejected
    && (forall t :: t in s.pending || t in s.granted || t in s.rejected <==> 1 <= t <= s.requestToken)
    && s.released <= s.granted && s.asked <= s.granted
    // the current sentinel is a live one
    && (s.sentinel.Some? ==> s.sentinel.value in s.granted && s.sentinel.value !in s.released)
    // every other one is let go, and nothing is kept unwanted
    && (forall x :: x in s.granted && s.sentinel != Some(x) ==> LettingGo(s, x))
    && (!s.wanted ==> forall x :: x in s.granted ==> LettingGo(s, x))
    // so a grant replaces nothing that is not being let go
    && (s.requestToken in s.pending && s.sentinel.Some? ==> LettingGo(s, s.sentinel.value))
    && (s.report == Some(true) ==> s.sentinel.Some?)
  }

  lemma StepKeeps(s: State, e: Event)
    requires Inv(s)
    ensures Inv(Step(s, e))
  {
    hide Inv, Requested, Asked, Granted, Rejected, Released;
    match e
    case SetWanted(next) => WantedKeeps(s, next);
    case VisibilityChange(visible) => if s.wanted && s.sentinel.None? { AcquireKeeps(s); }
    case Grant(t) => if t in s.pending { GrantKeeps(s, t); }
    case Reject(t) => if t in s.pending { RejectKeeps(s, t); }
    case Release(x) => if x in s.granted && x !in s.released { ReleaseKeeps(s, x); }
    case Destroy => UnwantedKeeps(s, false);
  }

  lemma WantedKeeps(s: State, next: bool)
    requires Inv(s)
    ensures Inv(Step(s, SetWanted(next)))
  {
    if next && !s.wanted {
      AcquireKeeps(s.(wanted := true));
    } else if !next && s.wanted {
      UnwantedKeeps(s, s.listening);
    }
    hide Requested, Asked;
  }

  // Whoever no longer wants the lock asks for it to be released.
  lemma UnwantedKeeps(s: State, listening: bool)
    requires Inv(s)
    ensures Inv(Asked(s.(listening := listening, wanted := false)))
  {
  }

  lemma GrantKeeps(s: State, t: Token)
    requires Inv(s) && t in s.pending
    ensures Inv(Granted(s, t))
  {
  }

  lemma RejectKeeps(s: State, t: Token)
    requires Inv(s) && t in s.pending
    ensures Inv(Rejected(s, t))
  {
  }

  lemma ReleaseKeeps(s: State, x: Token)
    requires Inv(s) && x in s.granted && x !in s.released
    ensures Inv(Released(s, x))
  {
  }

  // Acquiring is safe once the current sentinel, if any, is being let go.
  lemma AcquireKeeps(s: State)
    requires Inv(s) && s.wanted && (s.sentinel.Some? ==> LettingGo(s, s.sentinel.value))
    ensures Inv(Requested(s))
  {
  }

  lemma {:induction false} AlwaysInv(supported: bool, events: seq<Event>)
    ensures Inv(Run(Start(supported), events))
  {
    if events != [] {
      AlwaysInv(supported, events[..|events| - 1]);
      hide Inv, Step;
      StepKeeps(Run(Start(supported), events[..|events| - 1]), events[|events| - 1]);
    }
  }

  // ------------------------------------------------------- the guarantees

  predicate Held(s: State, x: Token) { x in s.granted && !LettingGo(s, x) }

  // In every interleaving at most one lock is held without having been asked
  // to go, and none is once the lock is unwanted.
  lemma {:induction false} AtMostOneHeld(supported: bool, events: seq<Event>, x: Token, y: Token)
    requires var s := Run(Start(supported), events); Held(s, x) && Held(s, y)
    ensures var s := Run(Start(supported), events); x == y && s.sentinel == Some(x) && s.wanted
  {
    AlwaysInv(supported, events);
    hide Run;
  }

  // "Held" is never reported of a lock that is gone: the current sentinel's
  // release event has not fired.
  lemma {:induction false} ReportIsHonest(supported: bool, events: seq<Event>)
    requires Run(Start(supported), events).report == Some(true)
    ensures var s := Run(Start(supported), events);
            s.sentinel.Some? && s.sentinel.value in s.granted && s.sentinel.value !in s.released
  {
    AlwaysInv(supported, events);
    hide Run;
  }

  // After destroy, and unless somebody wants the lock again, nothing is
  // requested any more and whatever is still granted is let go at once.
  lemma {:induction false} DestroyIsFinal(s: State, events: seq<Event>)
    requires Inv(s)
    requires forall i :: 0 <= i < |events| ==> events[i] != SetWanted(true)
    ensures var s' := Run(Step(s, Destroy), events);
            && Inv(s') && !s'.wanted && !s'.listening && s'.requestToken == s.requestToken
            && forall x :: x in s'.granted ==> LettingGo(s', x)
  {
    if events == [] {
      StepKeeps(s, Destroy);
    } else {
      var n := |events| - 1;
      DestroyIsFinal(s, events[..n]);
      StepKeeps(Run(Step(s, Destroy), events[..n]), events[n]);
    }
  }

  // ------------------------------------------------- getting the lock back

  // The last request made so far is a new one, and waits for its answer.
  ghost predicate Requests(s: State, s': State) {
    && s'.requestToken == s.requestToken + 1 && s'.pending == s.pending + {s'.requestToken}
    && s'.requestToken !in s.pending && s'.requestToken !in s.granted && s'.requestToken !in s.rejected
    && s'.sentinel == s.sentinel && s'.asked == s.asked && s'.report == s.report
  }

  // Whenever the page is shown again without the lock it still wants, the lock
  // is requested; a page that is hidden, or lacks nothing, requests nothing.
  lemma {:induction false} ShownRequests(supported: bool, events: seq<Event>, visible: bool)
    ensures var s := Run(Start(supported), events);
            var s' := Step(s, VisibilityChange(visible));
            && s.supported == supported
            && (visible && supported && s.listening && s.wanted && s.sentinel.None? ==> Requests(s, s'))
            && (!visible || !supported || !s.listening || !s.wanted || s.sentinel.Some? ==> s' == s)
  {
    AlwaysInv(supported, events);
    StillSupported(supported, events);
    hide Run;
  }

  // So does wanting it, and no longer wanting it asks for its release.
  lemma {:induction false} WantingRequests(supported: bool, events: seq<Event>)
    ensures var s := Run(Start(supported), events);
            && (supported && !s.wanted ==> Requests(s, Step(s, SetWanted(true))) && Step(s, SetWanted(true)).wanted)
            && (s.wanted ==> Step(s, SetWanted(true)) == s)
            && (s.wanted && s.sentinel.Some? ==> s.sentinel.value in Step(s, SetWanted(false)).asked)
            && !Step(s, SetWanted(false)).wanted && Step(s, SetWanted(false)).requestToken == s.requestToken
  {
    AlwaysInv(supported, events);
    StillSupported(supported, events);
    hide Run;
  }

  lemma {:induction false} StillSupported(supported: bool, events: seq<Event>)
    ensures Run(Start(supported), events).supported == supported
  {
    if events != [] { StillSupported(supported, events[..|events| - 1]); }
  }

  // Whatever happens meanwhile, a request waits until it is answered; and if
  // it is granted as the newest while the lock is wanted, the lock is held,
  // and so reported.
  lemma {:induction false} RequestIsKept(s: State, later: seq<Event>, t: Token)
    requires Inv(s) && t in s.pending
    ensures var s' := Run(s, later);
            && Inv(s') && (t in s'.pending || Grant(t) in later || Reject(t) in later)
            && (t in s'.pending && t == s'.requestToken && s'.wanted ==>
                  var g := Step(s', Grant(t)); g.sentinel == Some(t) && g.report == Some(true) && Held(g, t) && g.wanted)
  {
    hide Run, Inv, Step, Held;
    if later == [] {
      assert Run(s, []) == s by { RunNone(s); }
    } else {
      var n := |later| - 1;
      var before := Run(s, later[..n]);
      RequestIsKept(s, later[..n], t);
      RunOn(s, later);
      StepKeeps(before, later[n]);
      assert later[n] in later && forall e :: e in later[..n] ==> e in later;
      if t in before.pending && later[n] != Grant(t) && later[n] != Reject(t) { WaitsOn(before, later[n], t); }
    }
    GrantHolds(Run(s, later), t);
  }

  lemma {:induction false} RunNone(s: State)
    ensures Run(s, []) == s
  {
  }

  lemma {:induction false} RunOn(s: State, events: seq<Event>)
    requires events != []
    ensures Run(s, events) == Step(Run(s, events[..|events| - 1]), events[|events| - 1])
  {
  }

  lemma WaitsOn(s: State, e: Event, t: Token)
    requires t in s.pending && e != Grant(t) && e != Reject(t)
    ensures t in Step(s, e).pending
  {
  }

  lemma GrantHolds(s: State, t: Token)
    requires Inv(s)
    ensures t in s.pending && t == s.requestToken && s.wanted ==>
              var g := Step(s, Grant(t)); g.sentinel == Some(t) && g.report == Some(true) && Held(g, t) && g.wanted
  {
  }

  // The two together: shown again, the page has its lock back as soon as the
  // browser grants what it then asks for.
  lemma {:induction false} Reacquires(supported: bool, events: seq<Event>, later: seq<Event>)
    requires var s := Run(Start(supported), events); supported && s.listening && s.wanted && s.sentinel.None?
    ensures var s1 := Step(Run(Start(supported), events), VisibilityChange(true));
            var s2, t := Run(s1, later), s1.requestToken;
            && (t in s2.pending || Grant(t) in later || Reject(t) in later)
            && (t in s2.pending && t == s2.requestToken && s2.wanted ==>
                  Held(Step(s2, Grant(t)), t) && Step(s2, Grant(t)).report == Some(true))
  {
    AlwaysInv(supported, events);
    ShownRequests(supported, events, true);
    hide Run, Inv, Step;
    var s := Run(Start(supported), events);
    StepKeeps(s, VisibilityChange(true));
    RequestIsKept(Step(s, VisibilityChange(true)), later, Step(s, VisibilityChange(true)).requestToken);
  }

  // ------------------------------------------------------- the controller

  class Browser {
    const supported: bool
    var pending: set<Token>
    var granted: set<Token>
    var rejected: set<Token>
    var asked: set<Token>
    var released: set<Token>
    var report: Option<bool>

    constructor (supported: bool)
      ensures this.supported == supported && report == None
      ensures pending == granted == rejected == asked == released == {}
    {
      this.supported := supported;
      pending, granted, rejected, asked, released, report := {}, {}, {}, {}, {}, None;
    }
  }

  class Controller {
    const nav: Browser
    var wanted: bool
    var sentinel: Option<Token>
    var requestToken: Token
    var listening: bool

    function Now(): State
      reads this, nav
    {
      State(nav.supported, wanted, sentinel, requestToken, listening,
            nav.pending, nav.granted, nav.rejected, nav.asked, nav.released, nav.report)
    }

    constructor (nav: Browser)
      requires nav.pending == nav.granted == nav.rejected == nav.asked == nav.released == {} && nav.report == None
      ensures this.nav == nav && Now() == Start(nav.supported)
    {
      this.nav := nav;
      wanted, sentinel, requestToken, listening := false, None, 0, true;
    }

    method Acquire()
      modifies this`requestToken, nav`pending
      ensures Now() == Requested(old(Now()))
    {
      if !nav.supported {
        return;
      }
      requestToken := requestToken + 1;
      nav.pending := nav.pending + {requestToken};
    }

    method AskRelease()
      modifies nav`asked
      ensures Now() == Asked(old(Now()))
    {
      if sentinel.Some? {
        nav.asked := nav.asked + {sentinel.value};
      }
    }

    // The request settled with a sentinel.
    method OnGrant(token: Token)
      requires token in nav.pending
      modifies this`sentinel, nav
      ensures Now() == Step(old(Now()), Grant(token))
      ensures token == requestToken && wanted ==> sentinel == Some(token) && nav.report == Some(true)
      ensures token != requestToken || !wanted ==>
                token in nav.asked && sentinel == old(sentinel) && nav.report == old(nav.report)
    {
      nav.pending, nav.granted := nav.pending - {token}, nav.granted + {token};
      if token != requestToken || !wanted {
        nav.asked := nav.asked + {token};
        return;
      }
      sentinel := Some(token);
      nav.report := Some(true);
    }

    method OnReject(token: Token)
      requires token in nav.pending
      modifies nav
      ensures Now() == Step(old(Now()), Reject(token))
      ensures nav.report == if token == requestToken then Some(false) else old(nav.report)
    {
      nav.pending, nav.rejected := nav.pending - {token}, nav.rejected + {token};
      if token == requestToken {
        nav.report := Some(false);
      }
    }

    // The release event of a granted sentinel.
    method OnRelease(x: Token)
      requires x in nav.granted && x !in nav.released
      modifies this`sentinel, nav
      ensures Now() == Step(old(Now()), Release(x))
      ensures old(sentinel) == Some(x) ==> sentinel == None && nav.report == Some(false)
      ensures old(sentinel) != Some(x) ==> sentinel == old(sentinel) && nav.report == old(nav.report)
    {
      nav.released := nav.released + {x};
      if sentinel == Some(x) {
        sentinel := None;
        nav.report := Some(false);
      }
    }

    method OnVisibilityChange(visible: bool)
      requires listening
      modifies this`requestToken, nav`pending
      ensures Now() == Step(old(Now()), VisibilityChange(visible))
      ensures visible && nav.supported && wanted && sentinel.None? ==>
                requestToken == old(requestToken) + 1 && nav.pending == old(nav.pending) + {requestToken}
      ensures !visible || !nav.supported || !wanted || sentinel.Some? ==>
                requestToken == old(requestToken) && nav.pending == old(nav.pending)
    {
      if visible && wanted && sentinel.None? {
        Acquire();
      }
    }

    method SetWanted(next: bool)
      modifies this, nav
      ensures Now() == Step(old(Now()), Event.SetWanted(next))
      ensures wanted == next
      ensures next && !old(wanted) && nav.supported ==>
                requestToken == old(requestToken) + 1 && nav.pending == old(nav.pending) + {requestToken}
      ensures !next && old(wanted) && sentinel.Some? ==> sentinel.value in nav.asked
    {
      if wanted == next {
        return;
      }
      wanted := next;
      if next {
        Acquire();
      } else {
        AskRelease();
      }
    }

    method Destroy()
      modifies this, nav
      ensures Now() == Step(old(Now()), Event.Destroy)
      ensures !listening && !wanted && requestToken == old(requestToken)
      ensures sentinel.Some? ==> sentinel.value in nav.asked
    {
      listening := false;
      wanted := false;
      AskRelease();
    }
  }
}
