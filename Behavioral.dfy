/** The behavioural example that carries logic: a support desk as a chain of
    responsibility. Each handler either answers an issue or passes it on to
    the handler linked after it. */
module ChainOfResponsibility {
  import opened JavaText

  /** The three concrete `SupportHandler` subclasses. */
  datatype HandlerKind = TechnicalSupport | BillingSupport | GeneralSupport

  /** Whether a handler of kind `k` answers `issue` itself: the technical and
      billing desks answer only their own tag, the general desk answers
      everything. */
  predicate Resolves(k: HandlerKind, issue: string)
  {
    match k
    case TechnicalSupport => issue == "technical"
    case BillingSupport => issue == "billing"
    case GeneralSupport => true
  }

  /** The line a handler of kind `k` writes when it answers `issue`. */
  function Reply(k: HandlerKind, issue: string): string
  {
    match k
    case TechnicalSupport => "Technical support: I'll fix your technical issue"
    case BillingSupport => "Billing support: I'll help with your bill"
    case GeneralSupport => "General support: I'll help you with " + issue
  }

  /** `handleRequest` on the first handler of a chain whose kinds are `kinds`,
      in link order: the line written, or `None` when a handler that does not
      answer has no successor. */
  function Dispatch(kinds: seq<HandlerKind>, issue: string): (r: Option<string>)
    ensures GeneralSupport in kinds ==> r.Some?
  {
    if kinds == [] then None
    else match kinds[0]
      case TechnicalSupport =>
        if issue == "technical" then Some(Reply(TechnicalSupport, issue)) else Dispatch(kinds[1..], issue)
      case BillingSupport =>
        if issue == "billing" then Some(Reply(BillingSupport, issue)) else Dispatch(kinds[1..], issue)
      case GeneralSupport =>
        Some(Reply(GeneralSupport, issue))
  }

  /** The position of the first handler that answers `issue`, if any. */
  function FirstResolver(kinds: seq<HandlerKind>, issue: string): (r: Option<nat>)
    ensures r.Some? ==> r.value < |kinds| && Resolves(kinds[r.value], issue)
    ensures r.Some? ==> forall j :: 0 <= j < r.value ==> !Resolves(kinds[j], issue)
    ensures r.None? ==> forall j :: 0 <= j < |kinds| ==> !Resolves(kinds[j], issue)
  {
    if kinds == [] then None
    else if Resolves(kinds[0], issue) then Some(0)
    else match FirstResolver(kinds[1..], issue)
      case None => None
      case Some(i) => Some(i + 1)
  }

  /** The request is answered by the first handler along the chain that can
      answer it, with that handler's line, and by nobody when no handler can. */
  lemma {:induction false} DispatchIsFirstResolver(kinds: seq<HandlerKind>, issue: string)
    ensures Dispatch(kinds, issue) == match FirstResolver(kinds, issue)
                                     case None => None
                                     case Some(i) => Some(Reply(kinds[i], issue))
    decreases |kinds|
  {
    if kinds != [] && !Resolves(kinds[0], issue) {
      DispatchIsFirstResolver(kinds[1..], issue);
    }
  }

  /** A chain that holds a general desk always answers. */
  lemma GeneralSupportAlwaysAnswers(kinds: seq<HandlerKind>, issue: string)
    requires GeneralSupport in kinds
    ensures Dispatch(kinds, issue).Some?
  {
    DispatchIsFirstResolver(kinds, issue);
    var g :| 0 <= g < |kinds| && kinds[g] == GeneralSupport;
    assert Resolves(kinds[g], issue);
  }

  /** A chain in which no handler can answer writes nothing: the last
      handler, whose successor is null, drops the request. */
  lemma UnansweredIsDropped(kinds: seq<HandlerKind>, issue: string)
    requires forall j :: 0 <= j < |kinds| ==> !Resolves(kinds[j], issue)
    ensures Dispatch(kinds, issue) == None
  {
    DispatchIsFirstResolver(kinds, issue);
  }

  /** In the desk of the demonstration (technical, then billing, then
      general) each tag reaches the desk meant for it. */
  lemma DemoDeskRouting(issue: string)
    ensures Dispatch([TechnicalSupport, BillingSupport, GeneralSupport], issue)
         == Some(if issue == "technical" then Reply(TechnicalSupport, issue)
                 else if issue == "billing" then Reply(BillingSupport, issue)
                 else Reply(GeneralSupport, issue))
  {
    var kinds := [TechnicalSupport, BillingSupport, GeneralSupport];
    assert kinds[1..] == [BillingSupport, GeneralSupport];
    assert kinds[1..][1..] == [GeneralSupport];
    if issue == "technical" {
      assert Dispatch(kinds, issue) == Some(Reply(TechnicalSupport, issue));
    } else if issue == "billing" {
      assert Dispatch(kinds, issue) == Dispatch(kinds[1..], issue);
    } else {
      assert Dispatch(kinds, issue) == Dispatch(kinds[1..], issue) == Dispatch(kinds[1..][1..], issue);
    }
  }

  /** The three requests of the demonstration and the lines they produce. */
  lemma DemoRequests()
    ensures Dispatch([TechnicalSupport, BillingSupport, GeneralSupport], "technical")
         == Some("Technical support: I'll fix your technical issue")
    ensures Dispatch([TechnicalSupport, BillingSupport, GeneralSupport], "billing")
         == Some("Billing support: I'll help with your bill")
    ensures Dispatch([TechnicalSupport, BillingSupport, GeneralSupport], "other")
         == Some("General support: I'll help you with other")
  {
    DemoDeskRouting("technical");
    assert "billing" != "technical";
    DemoDeskRouting("billing");
    assert "other" != "technical" && "other" != "billing";
    DemoDeskRouting("other");
    assert "General support: I'll help you with " + "other" == "General support: I'll help you with other";
  }

  /** `SupportHandler`: its kind stands for its subclass, `next` is
      `nextHandler`. */
  class SupportHandler {
    const kind: HandlerKind
    var next: SupportHandler?

    constructor (kind: HandlerKind)
      ensures this.kind == kind && next == null
    {
      this.kind := kind;
      next := null;
    }

    /** `setNext`. */
    method SetNext(nextHandler: SupportHandler?)
      modifies this`next
      ensures next == nextHandler
    {
      next := nextHandler;
    }

    /** `handleRequest`: answers or forwards along `chain`, a `next`-linked
        list of handlers from this one. The list may run past the first
        handler that answers, which does not change the result. */
    method HandleRequest(issue: string, ghost chain: seq<SupportHandler>) returns (line: Option<string>)
      requires LinkedFrom(this, chain, issue)
      ensures line == Dispatch(Kinds(chain), issue)
      decreases |chain|
    {
      assert Kinds(chain)[1..] == Kinds(chain[1..]);
      match kind {
        case TechnicalSupport =>
          if issue == "technical" {
            line := Some("Technical support: I'll fix your technical issue");
          } else if next != null {
            line := next.HandleRequest(issue, chain[1..]);
          } else {
            line := None;
          }
        case BillingSupport =>
          if issue == "billing" {
            line := Some("Billing support: I'll help with your bill");
          } else if next != null {
            line := next.HandleRequest(issue, chain[1..]);
          } else {
            line := None;
          }
        case GeneralSupport =>
          line := Some("General support: I'll help you with " + issue);
      }
    }
  }

  /** `chain` lists handlers met by following `next` from `h`, ending at a
      handler that answers `issue` or whose successor is null. It may run past
      the first handler that answers and, in a cycle, repeat handlers;
      `Dispatch` stops at the first one that answers either way. */
  ghost predicate LinkedFrom(h: SupportHandler, chain: seq<SupportHandler>, issue: string)
    reads set x | x in chain
  {
    |chain| > 0 && chain[0] == h &&
    (forall i :: 0 <= i < |chain| - 1 ==> chain[i].next == chain[i + 1]) &&
    (chain[|chain| - 1].next == null || Resolves(chain[|chain| - 1].kind, issue))
  }

  function Kinds(chain: seq<SupportHandler>): (ks: seq<HandlerKind>)
    ensures |ks| == |chain| && forall i :: 0 <= i < |chain| ==> ks[i] == chain[i].kind
  {
    if chain == [] then [] else [chain[0].kind] + Kinds(chain[1..])
  }

  /** The demonstration: three handlers linked technical, billing, general,
      and the three requests sent to the technical desk. */
  method DemoSupport() returns (technical: Option<string>, billing: Option<string>, other: Option<string>)
    ensures technical == Some("Technical support: I'll fix your technical issue")
    ensures billing == Some("Billing support: I'll help with your bill")
    ensures other == Some("General support: I'll help you with other")
  {
    var t := new SupportHandler(TechnicalSupport);
    var b := new SupportHandler(BillingSupport);
    var g := new SupportHandler(GeneralSupport);
    t.SetNext(b);
    b.SetNext(g);
    DemoRequests();
    technical := AskDesk(t, "technical");
    billing := AskDesk(t, "billing");
    other := AskDesk(t, "other");
  }

  /** A request sent to a technical desk linked to a billing desk linked to a
      general desk is routed as `Dispatch` routes it through those kinds. */
  method AskDesk(t: SupportHandler, issue: string) returns (line: Option<string>)
    requires t.kind == TechnicalSupport && t.next != null && t.next.kind == BillingSupport
    requires t.next.next != null && t.next.next.kind == GeneralSupport
    ensures line == Dispatch([TechnicalSupport, BillingSupport, GeneralSupport], issue)
  {
    ghost var chain := [t, t.next, t.next.next];
    assert Kinds(chain) == [TechnicalSupport, BillingSupport, GeneralSupport];
    line := t.HandleRequest(issue, chain);
  }

  /** Cyclic links: technical and general point at each other. Every request
      is answered within the cycle, by the technical desk for "technical" and
      by the general desk otherwise. */
  method DemoCycle() returns (technical: Option<string>, billing: Option<string>)
    ensures technical == Some("Technical support: I'll fix your technical issue")
    ensures billing == Some("General support: I'll help you with billing")
  {
    var t := new SupportHandler(TechnicalSupport);
    var g := new SupportHandler(GeneralSupport);
    t.SetNext(g);
    g.SetNext(t);
    CycleReplies();
    technical := t.HandleRequest("technical", [t]);
    billing := t.HandleRequest("billing", [t, g]);
  }

  lemma CycleReplies()
    ensures Dispatch([TechnicalSupport], "technical") == Some("Technical support: I'll fix your technical issue")
    ensures Dispatch([TechnicalSupport, GeneralSupport], "billing")
         == Some("General support: I'll help you with billing")
  {
    assert "billing" != "technical";
    assert [TechnicalSupport, GeneralSupport][1..] == [GeneralSupport];
    assert "General support: I'll help you with " + "billing" == "General support: I'll help you with billing";
  }
}
