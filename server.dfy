/** server/common/server.py: the lottery server's bookkeeping — which
    agencies have finished sending bets, the winners' documents per agency,
    and the reply to each request. */
module Server {
  import opened Wire

  /** A bet as `load_bets` returns it, reduced to what the server uses: the
      agency, the bettor's document, and the verdict of `has_won` on it
      (`common.utils` is not part of this model, so the verdict is data). */
  datatype StoredBet = StoredBet(agency: int, document: GoString, won: bool)

  /** `dict.get(agency, [])`: the agency's documents, or none. */
  function Get(winners: map<int, seq<GoString>>, agency: int): seq<GoString>
  {
    if agency in winners then winners[agency] else []
  }

  /** Whether every agency id `1..numberOfClients` has finished; vacuously
      true when there are no clients. */
  ghost predicate AllFinished(finished: set<int>, numberOfClients: int)
  {
    forall id :: 1 <= id <= numberOfClients ==> id in finished
  }

  /** One step of `_load_winners`: a winning bet appends its document to its
      agency's list, creating the list on first use; a losing bet changes
      nothing. */
  function Record(winners: map<int, seq<GoString>>, bet: StoredBet): map<int, seq<GoString>>
  {
    if bet.won then winners[bet.agency := Get(winners, bet.agency) + [bet.document]] else winners
  }

  /** The map `_load_winners` leaves after going through `bets` in order. */
  function LoadedFrom(winners: map<int, seq<GoString>>, bets: seq<StoredBet>): map<int, seq<GoString>>
    decreases |bets|
  {
    if bets == [] then winners
    else Record(LoadedFrom(winners, bets[..|bets| - 1]), bets[|bets| - 1])
  }

  /** The documents of the winning bets of one agency, in load order. */
  function WinningDocuments(bets: seq<StoredBet>, agency: int): (docs: seq<GoString>)
    ensures |docs| <= |bets|
    decreases |bets|
  {
    if bets == [] then []
    else
      var last := bets[|bets| - 1];
      WinningDocuments(bets[..|bets| - 1], agency)
        + (if last.won && last.agency == agency then [last.document] else [])
  }

  /** After loading, each agency's list is its old list followed by the
      documents of its winning bets, in load order; agencies without a
      winning bet keep their entry, or their absence, untouched. */
  lemma {:induction false} LoadedEntries(winners: map<int, seq<GoString>>, bets: seq<StoredBet>, agency: int)
    ensures Get(LoadedFrom(winners, bets), agency) == Get(winners, agency) + WinningDocuments(bets, agency)
    ensures agency in LoadedFrom(winners, bets) <==> agency in winners || WinningDocuments(bets, agency) != []
    decreases |bets|
  {
    if bets == [] {
      assert Get(winners, agency) + [] == Get(winners, agency);
    } else {
      var init := bets[..|bets| - 1];
      var last := bets[|bets| - 1];
      var added := if last.won && last.agency == agency then [last.document] else [];
      LoadedEntries(winners, init, agency);
      RecordEntry(LoadedFrom(winners, init), last, agency);
      assert WinningDocuments(bets, agency) == WinningDocuments(init, agency) + added;
      Associative(Get(winners, agency), WinningDocuments(init, agency), added);
    }
  }

  /** Recording one bet appends its document to its agency's list when it
      won, and touches nothing else. */
  lemma RecordEntry(winners: map<int, seq<GoString>>, bet: StoredBet, agency: int)
    ensures Get(Record(winners, bet), agency)
      == Get(winners, agency) + (if bet.won && bet.agency == agency then [bet.document] else [])
    ensures agency in Record(winners, bet) <==> agency in winners || (bet.won && bet.agency == agency)
  {
    if !(bet.won && bet.agency == agency) {
      assert Get(winners, agency) + [] == Get(winners, agency);
    }
  }

  /** Losing bets change nothing: when no loaded bet has won, the map is left
      as it was. */
  lemma {:induction false} LosingBetsChangeNothing(winners: map<int, seq<GoString>>, bets: seq<StoredBet>)
    requires forall i :: 0 <= i < |bets| ==> !bets[i].won
    ensures LoadedFrom(winners, bets) == winners
    decreases |bets|
  {
    if bets != [] {
      var init := bets[..|bets| - 1];
      assert forall i :: 0 <= i < |init| ==> init[i] == bets[i];
      LosingBetsChangeNothing(winners, init);
    }
  }

  /** The map is never cleared, so loading the same bets a second time lists
      every winning document twice. */
  lemma LoadTwiceDuplicates(bets: seq<StoredBet>, agency: int)
    ensures Get(LoadedFrom(LoadedFrom(map[], bets), bets), agency)
      == WinningDocuments(bets, agency) + WinningDocuments(bets, agency)
  {
    LoadedEntries(map[], bets, agency);
    LoadedEntries(LoadedFrom(map[], bets), bets, agency);
    assert Get(map[], agency) == [];
  }

  /** Adding an agency never undoes "all finished", and adding one that is
      already there changes nothing. */
  lemma FinishingKeepsAllFinished(finished: set<int>, numberOfClients: int, agency: int)
    ensures AllFinished(finished, numberOfClients) ==> AllFinished(finished + {agency}, numberOfClients)
    ensures agency in finished ==> finished + {agency} == finished
    ensures finished + {agency} + {agency} == finished + {agency}
  {
  }

  /** What the server receives on a connection, as `recv_msg` reports it:
      a batch of bets, a finalization or a winners query from an agency,
      another message type, a `MessageReceptionError`, or any other failure
      while the request is read. */
  datatype Request =
    | BetBatch(bets: seq<StoredBet>)
    | Finalization(agency: int)
    | GetWinnersQuery(agency: int)
    | UnknownType(messageType: byte)
    | ReceptionError
    | OtherFailure

  /** What the server answers: `send_batch_success`, `send_batch_failure`,
      `send_winners(documents)`, `send_no_winners_yet`, or nothing. */
  datatype Reply = BatchSuccess | BatchFailure | Winners(documents: seq<GoString>) | NoWinnersYet | NoReply

  /** The server's lottery state. */
  datatype State = State(finished: set<int>, winners: map<int, seq<GoString>>)

  /** One pass of the loop in `run`: the reply and the new state for a
      request, `loaded` standing for what `load_bets` returns. */
  ghost function Handle(numberOfClients: int, st: State, req: Request, loaded: seq<StoredBet>): (Reply, State)
  {
    match req
    case BetBatch(_) => (BatchSuccess, st)
    case Finalization(agency) =>
      var finished := st.finished + {agency};
      if AllFinished(finished, numberOfClients) then (NoReply, State(finished, LoadedFrom(st.winners, loaded)))
      else (NoReply, State(finished, st.winners))
    case GetWinnersQuery(agency) =>
      if AllFinished(st.finished, numberOfClients) then (Winners(Get(st.winners, agency)), st)
      else (NoWinnersYet, st)
    case UnknownType(_) => (NoReply, st)
    case ReceptionError => (BatchFailure, st)
    case OtherFailure => (NoReply, st)
  }

  /** A winners query is answered "no winners yet" exactly until every
      agency has finished; after that with the agency's documents, or the
      empty list when it has none. */
  lemma WinnersQueryReply(numberOfClients: int, st: State, agency: int, loaded: seq<StoredBet>)
    ensures var (reply, st') := Handle(numberOfClients, st, GetWinnersQuery(agency), loaded);
      && st' == st
      && (reply == NoWinnersYet <==> !AllFinished(st.finished, numberOfClients))
      && (AllFinished(st.finished, numberOfClients) ==> reply == Winners(Get(st.winners, agency)))
      && (AllFinished(st.finished, numberOfClients) && agency !in st.winners ==> reply == Winners([]))
  {
  }

  /** Batches and reception errors get their batch verdict and leave the
      lottery state alone; a failure or an unknown type gets no reply. */
  lemma BatchReplies(numberOfClients: int, st: State, bets: seq<StoredBet>, t: byte, loaded: seq<StoredBet>)
    ensures Handle(numberOfClients, st, BetBatch(bets), loaded) == (BatchSuccess, st)
    ensures Handle(numberOfClients, st, ReceptionError, loaded) == (BatchFailure, st)
    ensures Handle(numberOfClients, st, UnknownType(t), loaded) == (NoReply, st)
    ensures Handle(numberOfClients, st, OtherFailure, loaded) == (NoReply, st)
  {
  }

  /** Once every agency has finished it stays so, whatever request comes. */
  lemma HandleKeepsAllFinished(numberOfClients: int, st: State, req: Request, loaded: seq<StoredBet>)
    requires AllFinished(st.finished, numberOfClients)
    ensures AllFinished(Handle(numberOfClients, st, req, loaded).1.finished, numberOfClients)
  {
    if req.Finalization? {
      FinishingKeepsAllFinished(st.finished, numberOfClients, req.agency);
    }
  }

  /** A finalization that finds every agency finished loads the winners
      again, even when that already happened: a repeated finalization
      appends every winning document a second time. */
  lemma RepeatedFinalizationDuplicates(numberOfClients: int, st: State, agency: int, loaded: seq<StoredBet>, a: int)
    requires AllFinished(st.finished + {agency}, numberOfClients)
    ensures var st1 := Handle(numberOfClients, st, Finalization(agency), loaded).1;
      var st2 := Handle(numberOfClients, st1, Finalization(agency), loaded).1;
      Get(st2.winners, a) == Get(st.winners, a) + WinningDocuments(loaded, a) + WinningDocuments(loaded, a)
  {
    var w1 := LoadedFrom(st.winners, loaded);
    LoadedEntries(st.winners, loaded, a);
    LoadedEntries(w1, loaded, a);
    FinishingKeepsAllFinished(st.finished + {agency}, numberOfClients, agency);
  }

  class Server {
    /** `int(number_of_clients)`, fixed at start-up. */
    const numberOfClients: int
    var finishedAgencies: set<int>
    var winnersByAgency: map<int, seq<GoString>>
    /** Whether a client connection is open. */
    var connectionOpen: bool

    /** `Server.__init__`: no agency finished, no winners, no connection. */
    constructor (numberOfClients: int)
      ensures this.numberOfClients == numberOfClients
      ensures finishedAgencies == {} && winnersByAgency == map[] && !connectionOpen
    {
      this.numberOfClients := numberOfClients;
      finishedAgencies := {};
      winnersByAgency := map[];
      connectionOpen := false;
    }

    /** `_all_agencies_finished`: scans the ids `1..numberOfClients` and
        stops at the first that has not finished. */
    method AllAgenciesFinished() returns (r: bool)
      ensures r <==> forall id :: 1 <= id <= numberOfClients ==> id in finishedAgencies
    {
      var id := 1;
      while id <= numberOfClients
        invariant 1 <= id
        invariant forall j :: 1 <= j < id ==> j in finishedAgencies
      {
        if id !in finishedAgencies {
          return false;
        }
        id := id + 1;
      }
      return true;
    }

    /** `_set_agency_as_finished`: adds the agency to the set. */
    method SetAgencyAsFinished(agency: int)
      modifies this`finishedAgencies
      ensures finishedAgencies == old(finishedAgencies) + {agency}
    {
      finishedAgencies := finishedAgencies + {agency};
    }

    /** `_load_winners`: goes through the loaded bets in order and, for each
        winning one, appends its document to its agency's list. */
    method LoadWinners(bets: seq<StoredBet>)
      modifies this`winnersByAgency
      ensures winnersByAgency == LoadedFrom(old(winnersByAgency), bets)
    {
      var i := 0;
      while i < |bets|
        invariant i <= |bets|
        invariant winnersByAgency == LoadedFrom(old(winnersByAgency), bets[..i])
      {
        var bet := bets[i];
        assert bets[..i + 1][..i] == bets[..i];
        if bet.won {
          var documents := if bet.agency in winnersByAgency then winnersByAgency[bet.agency] else [];
          winnersByAgency := winnersByAgency[bet.agency := documents + [bet.document]];
        }
        i := i + 1;
      }
      assert bets[..|bets|] == bets;
    }

    /** One pass of `run`'s loop once a connection is accepted: dispatch on
        the request, then close the connection whatever happened. */
    method HandleRequest(req: Request, loaded: seq<StoredBet>) returns (reply: Reply)
      modifies this`finishedAgencies, this`winnersByAgency, this`connectionOpen
      ensures (reply, State(finishedAgencies, winnersByAgency))
        == Handle(numberOfClients, State(old(finishedAgencies), old(winnersByAgency)), req, loaded)
      ensures !connectionOpen
    {
      connectionOpen := true;
      match req {
      case BetBatch(_) =>
        reply := BatchSuccess;
      case Finalization(agency) =>
        SetAgencyAsFinished(agency);
        var all := AllAgenciesFinished();
        if all {
          LoadWinners(loaded);
        }
        reply := NoReply;
      case GetWinnersQuery(agency) =>
        var all := AllAgenciesFinished();
        if all {
          reply := Winners(Get(winnersByAgency, agency));
        } else {
          reply := NoWinnersYet;
        }
      case UnknownType(_) =>
        reply := NoReply;
      case ReceptionError =>
        reply := BatchFailure;
      case OtherFailure =>
        reply := NoReply;
      }
      connectionOpen := false;
    }
  }
}
