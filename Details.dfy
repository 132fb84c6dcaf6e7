/**
 * The details slice of the application store: static metadata per symbol
 * as the registrar publishes it, the normaliser applied to the registrar's
 * response, and the LOADING / OK / ERROR status machine around the fetch.
 */
module Details {

  datatype DetailsStatus = OK | LOADING | ERROR

  datatype Sector = STOCKS | CRYPTO | FOREX | COMMODITIES | MISC

  /** One entry of the registrar's response, with the field names of its JSON. */
  datatype RawDetail = RawDetail(
    name: string,
    sector: string,
    symbol: string,
    short_symbol: string,
    long_symbol: string)

  /** One entry of the normalised details map. */
  datatype Detail = Detail(
    name: string,
    sector: Sector,
    symbol: string,
    shortSymbol: string,
    longSymbol: string)

  type DetailMap = map<string, Detail>

  /** The registrar's sector string as a `Sector`; everything unknown is FOREX. */
  function SectorOf(sector: string): (r: Sector)
    ensures r == STOCKS <==> sector == "stock"
    ensures r == CRYPTO <==> sector == "crypto"
    ensures r == FOREX <==> sector != "stock" && sector != "crypto"
  {
    if sector == "stock" then STOCKS
    else if sector == "crypto" then CRYPTO
    else FOREX
  }

  /** One response entry renamed to the store's field names, its sector mapped. */
  function Normalize(raw: RawDetail): (r: Detail)
    ensures r.name == raw.name && r.symbol == raw.symbol
    ensures r.shortSymbol == raw.short_symbol && r.longSymbol == raw.long_symbol
    ensures r.sector != COMMODITIES && r.sector != MISC
  {
    Detail(raw.name, SectorOf(raw.sector), raw.symbol, raw.short_symbol, raw.long_symbol)
  }

  /**
   * The `reduce` over the response's entries: every symbol of the response
   * gets its normalised entry, and nothing else is added.
   */
  method NormalizeDetails(response: map<string, RawDetail>) returns (acc: DetailMap)
    ensures acc.Keys == response.Keys
    ensures forall symbol | symbol in acc ::
      && acc[symbol].name == response[symbol].name
      && acc[symbol].symbol == response[symbol].symbol
      && acc[symbol].shortSymbol == response[symbol].short_symbol
      && acc[symbol].longSymbol == response[symbol].long_symbol
      && acc[symbol].sector == SectorOf(response[symbol].sector)
    ensures forall symbol | symbol in acc ::
      acc[symbol].sector != COMMODITIES && acc[symbol].sector != MISC
  {
    acc := map[];
    var todo := response.Keys;
    while todo != {}
      invariant todo <= response.Keys
      invariant acc.Keys == response.Keys - todo
      invariant forall symbol | symbol in acc :: acc[symbol] == Normalize(response[symbol])
      decreases todo
    {
      var symbol :| symbol in todo;
      acc := acc[symbol := Normalize(response[symbol])];
      todo := todo - {symbol};
    }
  }

  /** The slice's state: a status and the details map. */
  datatype DetailsState = DetailsState(status: DetailsStatus, details: DetailMap)

  /** The three outcomes of the fetch thunk that the slice reacts to. */
  datatype DetailsEvent = Pending | Fulfilled(payload: DetailMap) | Rejected

  function InitialState(): (s: DetailsState)
    ensures s.status == LOADING && s.details == map[]
  {
    DetailsState(LOADING, map[])
  }

  /** The case reducers as one transition function. */
  function Reduce(s: DetailsState, e: DetailsEvent): (r: DetailsState)
    ensures r.status == ERROR ==> r.details == map[]
    ensures e.Pending? ==> r.details == s.details
  {
    match e
    case Pending => s.(status := LOADING)
    case Fulfilled(payload) => s.(status := OK, details := payload)
    case Rejected => InitialState().(status := ERROR)
  }

  /** The state after a sequence of events, applied in order. */
  function Run(s: DetailsState, events: seq<DetailsEvent>): DetailsState
    decreases |events|
  {
    if events == [] then s else Run(Reduce(s, events[0]), events[1..])
  }

  /** The status each event leaves behind, independently of the prior state. */
  function StatusAfter(e: DetailsEvent): DetailsStatus
  {
    match e
    case Pending => LOADING
    case Fulfilled(_) => OK
    case Rejected => ERROR
  }

  /**
   * The details map after `events`: the payload of the last fulfilled event,
   * unless a rejection came after it; pending events change nothing.
   */
  ghost function SettledDetails(before: DetailMap, events: seq<DetailsEvent>): DetailMap
    decreases |events|
  {
    if events == [] then before
    else match events[|events| - 1]
      case Fulfilled(payload) => payload
      case Rejected => map[]
      case Pending => SettledDetails(before, events[..|events| - 1])
  }

  lemma {:induction false} RunAppend(s: DetailsState, events: seq<DetailsEvent>, e: DetailsEvent)
    ensures Run(s, events + [e]) == Reduce(Run(s, events), e)
    decreases |events|
  {
    if events == [] {
      assert [e][1..] == [];
    } else {
      assert (events + [e])[1..] == events[1..] + [e];
      RunAppend(Reduce(s, events[0]), events[1..], e);
    }
  }

  /** The status is whatever the last event set it to. */
  lemma {:induction false} RunStatus(s: DetailsState, events: seq<DetailsEvent>)
    requires events != []
    ensures Run(s, events).status == StatusAfter(events[|events| - 1])
  {
    var n := |events| - 1;
    assert events == events[..n] + [events[n]];
    RunAppend(s, events[..n], events[n]);
  }

  /** Details are replaced only by a fulfilled payload or cleared by a rejection. */
  lemma {:induction false} RunDetails(s: DetailsState, events: seq<DetailsEvent>)
    ensures Run(s, events).details == SettledDetails(s.details, events)
    decreases |events|
  {
    if events != [] {
      var n := |events| - 1;
      assert events == events[..n] + [events[n]];
      RunAppend(s, events[..n], events[n]);
      RunDetails(s, events[..n]);
    }
  }

  /** A rejection forgets everything about the state it happened in. */
  lemma RejectedForgetsPrior(s: DetailsState, t: DetailsState)
    ensures Reduce(s, Rejected) == Reduce(t, Rejected)
    ensures Reduce(s, Rejected) == DetailsState(ERROR, map[])
  {
  }

  /** From the initial state, an ERROR status always comes with empty details. */
  lemma {:induction false} ErrorMeansNoDetails(events: seq<DetailsEvent>)
    ensures Run(InitialState(), events).status == ERROR ==> Run(InitialState(), events).details == map[]
  {
    if events != [] {
      var n := |events| - 1;
      assert events == events[..n] + [events[n]];
      RunAppend(InitialState(), events[..n], events[n]);
    }
  }

  /** The slice as the store holds it, updated in place by its case reducers. */
  class DetailsSlice {
    var status: DetailsStatus
    var details: DetailMap

    function State(): DetailsState
      reads this
    {
      DetailsState(status, details)
    }

    constructor ()
      ensures State() == InitialState()
      ensures status == LOADING && details == map[]
    {
      var s := InitialState();
      status := s.status;
      details := s.details;
    }

    method OnPending()
      modifies this
      ensures State() == Reduce(old(State()), Pending)
      ensures status == LOADING && details == old(details)
    {
      status := LOADING;
    }

    method OnFulfilled(payload: DetailMap)
      modifies this
      ensures State() == Reduce(old(State()), Fulfilled(payload))
      ensures status == OK && details == payload
    {
      status := OK;
      details := payload;
    }

    /** The rejected case returns a fresh state; this object's fields are set from it. */
    method OnRejected()
      modifies this
      ensures State() == Reduce(old(State()), Rejected)
      ensures status == ERROR && details == map[]
    {
      var next := InitialState().(status := ERROR);
      status := next.status;
      details := next.details;
    }
  }
}
