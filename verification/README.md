# The Rank admission protocol

Rank admits requests for resources along a path of nodes. A request (EAR) travels from its origin
towards a listener; every node on the way pre-reserves it in a ledger, several possible routes are put
to an auction (MAR, BID), and an acceptance (ACC) or a refusal (REF) travels back; REP gives a
reservation up. This project models the protocol of `internal/rank-prelude` in the build for the
simulator, with its codecs, and the attribute walk of `internal/rankd-time`.

## How it is built

- `Identifiers`, `Capabilities`, `Routes`, `Auction`: ids and their byte form, requested items, the bid
  arithmetic, the route filter and the bid set.
- `Ledger` states on values what `Resources` does on heap objects: the list of reservations, edited
  through pointers that may alias its own entries. A ledger cell has an address, so both agree on what
  a pointer reaches.
- `Protocol` holds messages, handlers and nodes as values and, in its modules `Handlers` and
  `Processes`, functions for everything a node does with one message, one timeout or one awakening.
  `Machine` is the same as a process with handler objects whose fields are updated step by step; each
  of its methods is proved to do what the function says.
- Over those functions: `Sessions` (the store as an index), `Isolation` (sessions do not touch each
  other), `Rollback`, `Terminal`, `Acceptance`, `Verdicts`, `Requests`, `Entries` (how many ledger
  entries a session has), `Passage` (each step of a request that everybody accepts), `Outcomes` (what
  goes out for each answer, refusal, release and timeout, and what the session is left with) and `Strays`
  (messages that nobody waits for, and those that the process does not survive), and for networks of
  nodes `Network`, `Fidelity`, `Journeys` and `Markets`.
- `Wire`, `Admission`, `Cbor`, `CborBytes`, `Requirements`, `Transmission`: the message format, the
  admission request of applications, JSON over CBOR (section 3 of RFC 8949), requirements as documents,
  and the step from protocol messages to bytes and back. `Netlink` is the attribute walk.

A message and everything its handler does until its thread parks is one step. A handler blocked on bids
is woken by a step of its own, at any moment; every timeout callback is a step, at any moment. Where an
assertion fails, an exception is not caught or a null or dangling pointer is followed, the step crashes,
and properties speak of steps that complete. Ids are a 48-bit time stamp with 80 random bits. Bids are
real numbers. What a node would bid, its routes and its topology may differ from step to step.

Three assumptions recur. Ids differ from the all-ones value that the store lookup uses as "none". An
address that a step does look up in the topology is there: the past node where an ACC is passed on, and
the source where a REF is passed back. What goes to a port is told by the position that the topology
holds the address at (`Protocol.LeadsTo`). An origin that reports, a repeated ACC and a dropped translation
look nothing up and are bound by nothing; where an address is missing the thread stops half-way, silently
and in the state it was in (`Sessions.UnroutableStops`). Where a statement concerns requests without
requirements it assumes that they get no bid, which `Fidelity.OwnBidsRefuseNothing` proves of the node's
own bids.

Where the code does less than its names promise, the model follows the code and says exactly when the
promise is kept. The four-byte fields of an admission request are shifted by 3, 2, 1 and 0 bits instead
of bytes and so keep eleven bits; its writer and its reader exchange the tags of MAC and IPv4. The
conversion from network order erases every byte. String leaves, negative numbers and null bytes in keys
do not survive the way through CBOR. The evaluation weight is the integer quotient 2/3, which is 0, so
the mean is the last assessment alone. Copying a reservation resets its state, and the marking loop may
compare against a reservation that it has just changed. A listener that bid and then wins is left with the
entry of its bid for good (`Entries.BidEntryStays`); `Entries.AtMostOneExactly` says when that is so.

That the hypotheses about histories can be met is shown by whole legal histories from the request at its
origin to the listener and back: over any number of relays with success (`Journeys.Success`), with failure
(`Journeys.Failure`) and with a release that follows (`Journeys.Release`), and through an auction with one
winner (`Markets.AuctionSuccess`) and with a tie (`Markets.TieSuccess`).

## Model

| member | source | states |
|---|---|---|
| `Network.AcceptChain` | internal/rank-prelude/structs/handler.cpp:534-585 | in every history of a network without forged messages, whenever an ACC is sent or an origin reports success there is a finite chain of steps, strictly later one after the other, from a listener's EAR to this one; each took up its predecessor's ACC and moved an entry of its own node's ledger for that session to RESERVED |
| `Network.StepReserves` | internal/rank-prelude/structs/handler.cpp:1526-1681 | one step accepts only on an ACC, or on an EAR at its listener, and only if it moves a ledger entry of that session to RESERVED |
| `Network.StatesAreSound` | internal/rank-prelude/structs/process.cpp:250-590 | every state any node reaches in any history keeps the store index, the ownership of ledger pointers, and closed forgotten handlers |
| `Acceptance.AccReserves` | internal/rank-prelude/structs/resources.cpp:353-370 | an ACC that is not ignored reserves the session's first entry, which was not RESERVED before, despite the renaming lookup and the aliasing pointer |
| `Fidelity.RecordIsHonest` | internal/rank-prelude/structs/handler.cpp:814-904 | in every history, over any number of hops and auctions and with messages lost, repeated or overtaken: every EAR and MAR of a session carries the origin's priority, listener and exact requirements (or none), and every ledger entry of the session at any node is for just that request |
| `Fidelity.ReservedAsAsked` | internal/rank-prelude/structs/handler.cpp:534-542 | whatever an acceptance reserves has the priority, listener and requirements asked for at the origin |
| `Fidelity.OwnBidsRefuseNothing` | internal/rank-prelude/structs/resources.cpp:306-335 | a request without requirements never gets a nonzero bid |
| `Transmission.HeardAsSent` | internal/rank-prelude/include/structs/messages/ear.h:30-36 | a message of any of the six kinds written to bytes, with the requirements of its reservation or the four bytes of its bid, and parsed by the next node, whatever follows it, is the message that was sent, for priorities below 8 and bids that are finite floats |
| `Transmission.HeardAsAsked` | internal/rank-prelude/utils/messaging.cpp:27-66 | in every history, down to the bytes: every EAR and MAR of a session that any node sends is heard at the next one with the origin's priority and listener and its exact requirements or none |
| `Transmission.PayloadFits` | internal/rank-prelude/include/structs/messages/ear.h:33-35 | the payload of any requirements (at most 256 places) is below 65536 bytes, so its 16-bit length is exact |
| `Passage.Hop` | internal/rank-prelude/structs/handler.cpp:814-860 | with a single shortest connection a node that bids sends the request on exactly as it came, and keeps one pre-reserved entry that knows the way back |
| `Passage.LastHop` | internal/rank-prelude/structs/handler.cpp:534-585 | the listener of a request it bids for keeps one reserved entry and answers ACC towards the source |
| `Protocol.Port` | internal/rank-prelude/structs/handler.cpp:1637-1651 | the port of an address is the first position at which the topology holds it, and there is one exactly if the topology does |
| `Outcomes.SuccessReported` | internal/rank-prelude/structs/handler.cpp:1606-1630 | an ACC at the origin, under its own id or a part of a tie that it split, reserves the session's entry, appends its source to the next nodes, and reports success of the origin's own id, whatever the topology |
| `Outcomes.SuccessPassedOn` | internal/rank-prelude/structs/handler.cpp:1632-1681 | at any other node an ACC reserves the entry, appends its source to the next nodes, and goes on as one ACC of its id to the position of the past node in the topology |
| `Outcomes.SuccessTranslated` | internal/rank-prelude/structs/handler.cpp:1546-1600 | at a node that split a tie, the ACC of a part goes on to the past node's position under the session's own id, and key and handler return to that id |
| `Outcomes.FailureReported` | internal/rank-prelude/structs/handler.cpp:1787-1809 | a REF at the origin, under its own id or a part's, reports failure of its own id, which is no origin any more, and closes |
| `Outcomes.FailurePassedOn` | internal/rank-prelude/structs/handler.cpp:1812-1838 | at any other node a REF makes exactly one REF of its id go out, to the position of the handler's source in the topology, and closes |
| `Outcomes.FailureDropped` | internal/rank-prelude/structs/handler.cpp:1714-1781 | the REF of a part of a tie drops the translation and closes, silently |
| `Outcomes.FailureTranslated` | internal/rank-prelude/structs/handler.cpp:1714-1760 | the REF of a part of a part goes back to the source's position under the id that was split |
| `Outcomes.RefForgets` | internal/rank-prelude/structs/handler.cpp:1691-1702 | a REF removes the session's key exactly if its entry is pre-reserved, and leaves the entry in place |
| `Outcomes.ForgottenIsNew` | internal/rank-prelude/structs/process.cpp:335-350 | a message for a forgotten session gets a handler of its own, like a first one |
| `Outcomes.ReleasePassedOn` | internal/rank-prelude/structs/handler.cpp:1948-1985 | a REP at a node that is not the listener leaves it REPLENISHING and sends exactly one REP per recorded next node, in order, with the listener of the entry, along the first connection |
| `Outcomes.ReleaseArrives` | internal/rank-prelude/structs/handler.cpp:1909-1947 | a REP at the listener closes it and sends one REF along the first connection to where it came from; the entry stays |
| `Outcomes.TimeoutReleases` | internal/rank-prelude/structs/handler.cpp:281-335 | a timeout that counts (the REP one in every open state, the others but in RESERVED) erases the session's only entry, leaves all others in place, and closes |
| `Outcomes.RefusesRequest` | internal/rank-prelude/structs/handler.cpp:586-700 | without a bid, or with bid 0, an EAR leaves the ledger alone, closes, and is answered by one REF along the first shortest connection, at the listener as on the way |
| `Outcomes.DeclinesBid` | internal/rank-prelude/structs/handler.cpp:1265-1312 | without a bid, or with bid 0, a MAR leaves the ledger alone, closes, and is answered by exactly one BID of 0 to the address that asked |
| `Outcomes.DeclinedNeverWins` | internal/rank-prelude/structs/handler.cpp:161-187 | who bid 0 is no winner while another bid is positive |
| `Outcomes.FindsNoWay` | internal/rank-prelude/structs/handler.cpp:782-811 | a relay with a bid and no connection onwards sends one REF to the source and closes; its entry stays pre-reserved |
| `Outcomes.DropsMalformed` | internal/rank-prelude/structs/handler.cpp:455-482 | a request that does not pass validation is dropped and its handler closed |
| `Outcomes.DropsRepeated` | internal/rank-prelude/structs/process.cpp:340-350 | a request for a session that the store knows leaves no trace |
| `Outcomes.DropsAtListener` | internal/rank-prelude/structs/process.cpp:353-358 | nor does one at its listener under an id that is no key |
| `Outcomes.ClosesOnStrayBid` | internal/rank-prelude/structs/handler.cpp:1315-1350 | a bid that nobody waits for closes the handler, silently |
| `Strays.UnheardAnswered` | internal/rank-prelude/structs/handler.cpp:1909-1947 | a bid or a release at its listener for an unknown session makes a handler that closes; the release is answered by one REF |
| `Strays.UnheardKills` | internal/rank-prelude/structs/handler.cpp:1526-1545 | an acceptance of an unknown session, or a release of it on the way, follows a null reservation |
| `Strays.UnheardRefused` | internal/rank-prelude/structs/handler.cpp:1787-1838 | a refusal of an unknown session is reported by its origin, and kills any other node, which has no source |
| `Strays.BlockedIsDeaf` | internal/rank-prelude/structs/process.cpp:374-446 | while the thread is blocked, everything but a bid for its auction is lost |
| `Strays.LostAtOrigin` | internal/rank-prelude/structs/process.cpp:361-369 | at an origin, a message under an id that is neither its own nor translated dies of the lookup |
| `Strays.RefusesAgain` | internal/rank-prelude/structs/handler.cpp:656-700 | a request without requirements that comes again to a decided session, and gets no bid, closes it with one REF; the entry stays as it is |
| `Strays.RefusesWinner` | internal/rank-prelude/structs/handler.cpp:586-650 | a listener that would not bid any more refuses the winner's request with one REF and closes; its entry stays |
| `Strays.NoWayBackKills` | internal/rank-prelude/structs/handler.cpp:1213-1312 | a request that must be answered dies without a connection to where it came from |
| `Strays.AccKills` | internal/rank-prelude/structs/handler.cpp:1536-1545 | an ACC dies if the entry cannot be marked, or if there is neither an origin nor a past node |
| `Strays.AccStops` | internal/rank-prelude/structs/handler.cpp:1637-1651 | an ACC whose past node is not in the topology reserves the entry and stops there, silently, in the state it was in |
| `Strays.RefStops` | internal/rank-prelude/structs/handler.cpp:1818-1832 | a REF whose source is not in the topology forgets the key as ever and stops there, silently |
| `Strays.ReleaseKills` | internal/rank-prelude/structs/handler.cpp:1957-1980 | a REP dies if a next node, or at the listener its source, has no connection |
| `Strays.AuctionKills` | internal/rank-prelude/structs/handler.cpp:1376-1516 | an auction dies if a winner has no connection, or if its entry was erased while it waited |
| `Strays.TimeoutKills` | internal/rank-prelude/structs/resources.cpp:337-351 | a timeout that counts dies without a reservation, and with one in a state that cannot be replenished |
| `Strays.OccupiedKeyStays` | internal/rank-prelude/structs/handler.cpp:1546-1575 | re-keying to a key that exists gives up the own key and leaves the other to its handler |
| `Strays.ForgottenRelease` | internal/rank-prelude/structs/handler.cpp:2029-2048 | a release for a handler whose key was forgotten closes it, silently |
| `Passage.Bids` | internal/rank-prelude/structs/handler.cpp:1136-1312 | a neighbour asked for a bid keeps one pre-reserved entry and answers with its bid |
| `Passage.Asks` | internal/rank-prelude/structs/handler.cpp:863-934 | with several shortest connections a first request opens an auction and goes on as a MAR to each |
| `Passage.TakesBid` | internal/rank-prelude/structs/handler.cpp:1338-1350 | a bid is counted and the thread blocks with the first one |
| `Passage.Chooses` | internal/rank-prelude/structs/handler.cpp:1376-1445 | the only winner is sent an EAR without requirements |
| `Passage.ChoosesAll` | internal/rank-prelude/structs/handler.cpp:1446-1516 | several winners are sent an EAR without requirements each, along the first connection to each, under an id of the session's time stamp and its own random part |
| `Passage.SendsOn` | internal/rank-prelude/structs/handler.cpp:945-1072 | the winner sends the requirements of its own entry on, and notes the past node |
| `Journeys.Success` | internal/rank-prelude/structs/handler.cpp:1606-1681 | over any number of relays there is a legal history in which a request passes from its origin to its listener, its acceptance comes back place by place through the positions of the past nodes and is reported, and every place is left with its entry reserved and the node that accepted recorded |
| `Journeys.Failure` | internal/rank-prelude/structs/handler.cpp:1787-1838 | over any number of relays there is a legal history in which the listener refuses the request, every relay passes the refusal back, and the origin reports failure; every place is closed |
| `Journeys.Release` | internal/rank-prelude/structs/handler.cpp:1948-1985 | a history of success goes on with a REP at the origin, which each place sends on to the one that accepted, as far as the listener, which closes and sends a REF back |
| `Markets.AuctionSuccess` | internal/rank-prelude/structs/handler.cpp:1376-1445 | there is a legal history in which two neighbours bid, the higher bid wins, the request reaches its listener through the winner, and its acceptance comes back and is reported |
| `Markets.TieSuccess` | internal/rank-prelude/structs/process.cpp:361-369 | there is one in which they bid the same, each gets the request under an id of its own, the acceptance comes back under the first one's id, and the origin translates it and reports success of its own id |
| `Entries.StepAdds` | internal/rank-prelude/structs/resources.cpp:306-335 | every event leaves no entry of a session CREATED, and adds one to it exactly when it is a request with a nonzero bid for an unknown session, or the EAR of a winner at the listener that bid before; no event else adds any |
| `Entries.DecidedInEveryRun` | internal/rank-prelude/structs/reservation.cpp:3-16 | in every run no entry is left in the state a copy begins in |
| `Entries.AtMostOneExactly` | internal/rank-prelude/structs/resources.cpp:306-335 | in every run a session has at most one entry at a node all along exactly if no such event comes while it has one |
| `Entries.BidEntryStays` | internal/rank-prelude/structs/handler.cpp:534-542 | the input that gives two: a listener that bid and then wins keeps the entry of its bid PRE_RESERVED beside the RESERVED copy, and no EAR, MAR or BID timeout ever releases it |
| `Entries.AcceptsTwice` | internal/rank-prelude/structs/handler.cpp:534-585 | a listener whose entry is pre-reserved and that gets the winner's EAR pushes a copy of it, reserves the copy and answers one ACC |
| `Sessions.IndexInEveryRun` | internal/rank-prelude/structs/process.cpp:111-155 | after every run: no two store keys share a time stamp, every stored handler that is not closed sits under its own id, translations stay in their session's time stamp, and every handler is parked in PRE_RESERVED, AUCTION_WAITING, RESERVED, REPLENISHING or CLOSED |
| `Sessions.LookupInEveryRun` | internal/rank-prelude/structs/process.cpp:345-369 | after every run, at a node that is not the session's origin the store lookup of the next message succeeds |
| `Sessions.OnlyClosedIsDeaf` | internal/rank-prelude/structs/process.cpp:447-473 | after every run, CLOSED is the only state in which a handler that is not blocked has its messages discarded |
| `Sessions.HandleKeepsIndex` | internal/rank-prelude/structs/handler.cpp:435-2054 | from any state of the acting handler and for every message, a completed step parks in one of the five states and keeps the index |
| `Sessions.RenameKeepsIndex` | internal/rank-prelude/structs/process.cpp:111-155 | the renaming lookup keeps the index, finds the session under the id asked for, and leaves everything alone when the id is a key |
| `Sessions.AccKeepsIndex` | internal/rank-prelude/structs/handler.cpp:1546-1600 | an ACC that re-keys the handler to the original id keeps the index |
| `Sessions.RefKeepsIndex` | internal/rank-prelude/structs/handler.cpp:1691-1716 | a REF that erases the key, drops the translation and takes the original id without re-keying keeps the index |
| `Sessions.UnroutableStops` | internal/rank-prelude/structs/handler.cpp:1637-1651 | where an address looked up in the topology is missing, a completed step sends and reports nothing and leaves its handler's state as it was |
| `Sessions.LookupSucceeds` | internal/rank-prelude/structs/process.cpp:335-350 | under the index no message of a session that is not the node's own reaches a missing key |
| `Isolation.StepIsConfined` | internal/rank-prelude/structs/process.cpp:290-590 | an event of one session leaves the keys, translations, origin ids, handlers and ledger entries (in order) of all others as they were, and sends only within its session |
| `Isolation.SessionsAreIsolated` | internal/rank-prelude/structs/process.cpp:250-590 | in every run, while only other sessions have events a session keeps its keys, translations, origin ids, handlers and ledger entries |
| `Isolation.OwnedInEveryRun` | internal/rank-prelude/structs/resources.cpp:454-467 | in every run, ledger addresses are unique and every handler's pointer leads to entries of its own session |
| `Rollback.RolledBack` | internal/rank-prelude/structs/handler.cpp:281-324 | a session with one PRE_RESERVED entry followed by any sequence of its EAR, MAR and BID timeouts (at least one) among any ledger operations of other sessions: the ledger equals, in content and order, the one those operations produce without the session, and they fail exactly when they would without it |
| `Rollback.PlayClosed` | internal/rank-prelude/structs/handler.cpp:281-324 | after the first timeout the further ones leave no trace |
| `Rollback.OpIgnores` | internal/rank-prelude/structs/resources.cpp:306-423 | no ledger operation of one session can tell whether another session has entries: same result, same pointer, same ledger but for those entries |
| `Rollback.ReleaseOnly` | internal/rank-prelude/structs/resources.cpp:337-351 | replenishing a session's only entry leaves the ledger without the session |
| `Terminal.ClosedForGood` | internal/rank-prelude/structs/process.cpp:436-460 | once a session's handler is closed and not blocked, no sequence of messages, timeouts and awakenings of any session reopens it, changes its ledger entries or makes it send or report |
| `Terminal.QuietUnderAll` | internal/rank-prelude/structs/handler.cpp:1351-1375 | a closed auction that wakes without bids refuses once and changes nothing else |
| `Terminal.AuctionTimesOut` | internal/rank-prelude/structs/handler.cpp:281-324 | a waiting auction closed by its EAR, MAR or BID timeout wakes with zero bids, sends one REF and stays closed |
| `Terminal.ReservedHolds` | internal/rank-prelude/structs/handler.cpp:281-324 | a reserved handler survives every EAR, MAR and BID timeout, repeated request and repeated ACC, silently and with its entries as they were |
| `Terminal.StepKeepsRetired` | internal/rank-prelude/structs/handler.cpp:1691-1702 | a handler whose key was erased is closed and stays so, in every step |
| `Verdicts.OriginVerdicts` | internal/rank-prelude/structs/handler.cpp:1606-1630 | in every run of a node the verdicts on an origin id are none, success, failure, or success then failure; REP and repeated EARs are allowed as long as a repeated EAR without requirements gets no bid |
| `Verdicts.StepBears` | internal/rank-prelude/structs/handler.cpp:1787-1809 | one step reports at most one verdict on an id; success leaves a reserved handler under that id, failure removes the id from the origin set |
| `Verdicts.AnsweredStep` | internal/rank-prelude/structs/handler.cpp:1529-1533 | after a reported success no step reports success again |
| `Requests.FirstRequest` | internal/rank-prelude/structs/resources.cpp:306-423 | with no key and no entry of the session, an EAR or MAR with a nonzero bid adds exactly one entry, the request's own, at the end: RESERVED at the listener of an EAR, PRE_RESERVED otherwise; any other leaves the ledger untouched |
| `Requests.AuctionAtNode` | internal/rank-prelude/structs/handler.cpp:247-261 | an auction for 2 to 255 neighbours that bid at most once each, among events of other sessions: the bid set is what arrived, arrivals never exceed the number asked, and all-arrived holds exactly at the last bid |
| `Requests.AuctionOpens` | internal/rank-prelude/structs/handler.cpp:863-934 | with 2 to 255 shortest connections and no bids left over, the handler waits for as many bids as there are connections, none has arrived, and each connection gets exactly one MAR |
| `Requests.BidArrives` | internal/rank-prelude/structs/process.cpp:380-427 | a bid counts once, under the address it came from, whichever of its two ways it takes |
| `Requests.TieIsSplit` | internal/rank-prelude/structs/handler.cpp:1446-1516 | with several winners and fresh distinct ids: one EAR to each winner under an id of its own, and exactly as many new translations, all to the session id |
| `Auction.InsertKeepsOrder` | internal/rank-prelude/structs/handler.cpp:111-117 | inserting a bid keeps the set ordered, adds exactly that bid, and grows it only if it is new |
| `Auction.MaxBids` | internal/rank-prelude/structs/handler.cpp:161-187 | the loop returns the bidders at the maximum |
| `Auction.WinnersExactly` | internal/rank-prelude/structs/handler.cpp:161-187 | the winners are exactly the bidders whose bid is the maximum: non-empty and without repetition |
| `Auction.AuctionCompletes` | internal/rank-prelude/structs/handler.cpp:1338-1343 | counting one arrival per bid: set size and arrivals agree and all-arrived holds exactly at the n-th bid |
| `Identifiers.TranslationOf` | internal/rank-prelude/structs/handler.cpp:64-88 | the new id has the original's six time-stamp bytes, whatever the uninitialised accumulator held |
| `Identifiers.SameTimestamp` | internal/rank-prelude/structs/identifier.cpp:24-29 | comparing six marshalled bytes is comparing time stamps |
| `Identifiers.MarshalRoundTrip` | internal/rank-prelude/structs/identifier.cpp:31-37 | unmarshalling a marshalled id gives it back |
| `Identifiers.UnmarshalRoundTrip` | internal/rank-prelude/structs/identifier.cpp:31-37 | marshalling an unmarshalled id gives its bytes back |
| `Routes.MinDepth` | internal/rank-prelude/structs/handler.cpp:759-770 | the loop returns exactly the connections whose depth is at most every earlier depth |
| `Routes.KeptShape` | internal/rank-prelude/structs/handler.cpp:759-770 | the result starts with the first connection, ends with one of least depth, never rises, and is empty only on empty input |
| `Routes.KeptWhenSorted` | internal/rank-prelude/structs/handler.cpp:759-770 | on input sorted by depth the result is exactly the shortest connections |
| `Assessment.BareMetalAssessment` | internal/rank-prelude/structs/resources.cpp:54-103 | the loop scores 1 exactly when every item has a value and CPU and memory items are strictly below bare metal |
| `Assessment.CurrentAssessment` | internal/rank-prelude/structs/resources.cpp:105-174 | the loop and the weighted mean over the scores it collects, 0 at a missing value or a zero score |
| `Assessment.AlphaWithin` | internal/rank-prelude/structs/resources.cpp:105-174 | for any weight in [0,1] the mean lies between any bounds of the assessments |
| `Assessment.AlphaIsLast` | internal/rank-prelude/include/constants.h:39 | at the weight the code compiles to, the mean is the last assessment |
| `Assessment.BidWithin` | internal/rank-prelude/structs/resources.cpp:20-52 | with assessments in [0,1] a bid lies in [0, priority/64] |
| `Assessment.AcceptedExactly` | internal/rank-prelude/structs/resources.cpp:306-335 | a request gets a nonzero bid exactly when every item has a value, every CPU item is strictly below the bare CPU with a nonzero CPU sensor, every memory item likewise for memory, at least one such item is present, and the priority is positive |
| `Assessment.SingleItemBid` | internal/rank-prelude/structs/resources.cpp:20-52 | the bid for one CPU item is half of proximity plus one, times what the CPU sensor has free, times priority/64, and none from bare metal on; for one memory item the same with memory |
| `Assessment.ProximityShares` | internal/rank-prelude/structs/resources.cpp:176-188 | the four measures of proximity weigh a quarter each; one further hop halves the share of the hops |
| `Assessment.NearerIsBetter` | internal/rank-prelude/structs/resources.cpp:190-304 | proximity never rises with hops, delay variation or loss, nor falls with the round-trip score, and is 1 exactly within one hop without loss, at full round-trip score and bounded variation |
| `Ledger.LoopIsMarkReserved` | internal/rank-prelude/structs/resources.cpp:353-370 | the marking loop, which compares against a reservation it may be changing itself, marks exactly the equal entries up to the aliased one, and fails exactly when an equal entry has no legal transition or clashes later |
| `Resources.Resources.AvailableForPerformance` | internal/rank-prelude/structs/resources.cpp:306-335 | on heap objects: writes the bid through the pointer, pushes a CREATED copy exactly for a nonzero bid, and returns its address |
| `Resources.Resources.MarkReservation` | internal/rank-prelude/structs/resources.cpp:353-370 | on heap objects: the aliasing loop does what the ledger function says, or fails |
| `Resources.Resources.MarkPreReservation` | internal/rank-prelude/structs/resources.cpp:406-423 | on heap objects: pre-reserves and returns the first equal entry, or pre-reserves the statement and pushes a copy that is CREATED again |
| `Resources.Resources.ReplenishReservation` | internal/rank-prelude/structs/resources.cpp:337-351 | on heap objects: erases the first equal entry, and fails without one |
| `Resources.Resources.GetReservationFor` | internal/rank-prelude/structs/resources.cpp:454-467 | on heap objects: returns the session's first entry, renamed to the id asked for |
| `Resources.Reservation.CopyOf` | internal/rank-prelude/structs/reservation.cpp:3-16 | a copy has every field but the state, which is CREATED |
| `Resources.Reservation.Reserve` | internal/rank-prelude/structs/reservation.cpp:128-137 | CREATED or VIRTUALLY_PRE_RESERVED becomes RESERVED; anything else fails |
| `Resources.Reservation.PreReserve` | internal/rank-prelude/structs/reservation.cpp:139-146 | CREATED becomes PRE_RESERVED; anything else fails |
| `Resources.Reservation.MarkReserved` | internal/rank-prelude/structs/reservation.cpp:178-185 | PRE_RESERVED becomes RESERVED; anything else fails |
| `Resources.Reservation.Replenish` | internal/rank-prelude/structs/reservation.cpp:157-167 | a reserved or pre-reserved entry becomes CLEARED; anything else fails |
| `Machine.Handler.constructor` | internal/rank-prelude/structs/process.cpp:42-58 | a new handler is READY, without reservation, source or bids |
| `Machine.Process.Resume` | internal/rank-prelude/structs/handler.cpp:404-405 | every message first looks up the session's reservation and renames it |
| `Machine.Process.OnEar` | internal/rank-prelude/structs/handler.cpp:436-1133 | the step by step handling of an EAR does what HandleEar says |
| `Machine.Process.EarAtListener` | internal/rank-prelude/structs/handler.cpp:534-650 | at the listener: reserve and answer ACC, or refuse |
| `Machine.Process.EarAtRelay` | internal/rank-prelude/structs/handler.cpp:656-780 | elsewhere: pre-reserve and send on, or refuse |
| `Machine.Process.Forward` | internal/rank-prelude/structs/handler.cpp:780-934 | onwards: REF without connection, EAR on a single one, MARs and an auction on several |
| `Machine.Process.OnMar` | internal/rank-prelude/structs/handler.cpp:1136-1312 | a MAR is answered with the bid of the entry it leaves, or with 0 |
| `Machine.Process.OnBid` | internal/rank-prelude/structs/handler.cpp:1315-1350 | a bid is counted and blocks the thread, or closes a handler that does not wait for one |
| `Machine.Process.Wake` | internal/rank-prelude/structs/handler.cpp:1351-1524 | the blocked thread refuses without bids, sends on the only winner, or splits the tie |
| `Machine.Process.SplitTie` | internal/rank-prelude/structs/handler.cpp:1446-1516 | the loop makes one translation and one EAR per winner |
| `Machine.Process.OnAcc` | internal/rank-prelude/structs/handler.cpp:1526-1684 | an ACC is ignored when reserved, re-keys a translated handler, is reported by the origin or passed on |
| `Machine.Process.Rekey` | internal/rank-prelude/structs/handler.cpp:1546-1575 | the store entry moves to the original id; an occupied key keeps its own |
| `Machine.Process.OnRef` | internal/rank-prelude/structs/handler.cpp:1686-1855 | a REF erases the key of a pre-reserved handler, falls back to the original id, is reported by the origin or passed back |
| `Machine.Process.OnRep` | internal/rank-prelude/structs/handler.cpp:1857-2048 | a REP closes at its listener and is sent along the next nodes elsewhere |
| `Machine.Process.OnTimeout` | internal/rank-prelude/structs/handler.cpp:281-335 | a timeout closes and replenishes, except in CLOSED and (but for REP) RESERVED |
| `Machine.Process.IsKnown` | internal/rank-prelude/structs/process.cpp:111-130 | whether some key shares the time stamp |
| `Machine.Process.Rename` | internal/rank-prelude/structs/process.cpp:130-155 | another key of the session and its handler are renamed to the id |
| `Machine.Process.CreateHandler` | internal/rank-prelude/structs/process.cpp:42-58 | a fresh handler under the id, everything else untouched |
| `Machine.Process.Find` | internal/rank-prelude/structs/process.cpp:335-369 | duplicate requests are dropped; otherwise the stored handler is found, renamed and translated as needed, or the lookup fails |
| `Machine.Process.Deliver` | internal/rank-prelude/structs/process.cpp:290-590 | one turn of the loop: route, create or resume, mark the source, run the handler |
| `Machine.Process.Take` | internal/rank-prelude/structs/process.cpp:250-590 | every event does to the objects exactly what the step function does to the node value, over which the whole-run properties are proved |
| `Wire.MarshalHeader` | internal/rank-prelude/utils/marshalling.cpp:45-56 | the loop fills the array with first byte and id |
| `Wire.HeaderRoundTrip` | internal/rank-prelude/utils/marshalling.cpp:32-56 | a header with a two-bit version and a four-bit type is read back |
| `Wire.HeaderRewrite` | internal/rank-prelude/utils/marshalling.cpp:32-56 | writing a header that was read restores its bytes but for the two reserved bits |
| `Wire.ParseRequest` | internal/rank-prelude/include/structs/messages/ear.h:43-97 | the parsing loops yield the request at the start of the data, or throw exactly when it is cut short or its code unknown |
| `Wire.ParseListener` | internal/rank-prelude/include/structs/messages/rep.h:24-55 | the same for the listener of a REP |
| `Wire.WireRoundTrip` | internal/rank-prelude/structs/messages/ear.cpp:45-90 | parsing any encoded message followed by any bytes restores type, id, address and payload, with the priority modulo 8 |
| `Wire.UnknownCode` | internal/rank-prelude/structs/messages/ear.cpp:73-75 | an unknown listener code encodes to the empty string, which is no message |
| `Wire.LongPayload` | internal/rank-prelude/include/structs/messages/ear.h:33-35 | a payload comes back whole exactly when it is shorter than 65536 bytes |
| `Wire.SelfDelimiting` | internal/rank-prelude/utils/messaging.cpp:27-66 | two messages at the start of the same bytes are the same and end at the same place |
| `Wire.NetworkOrderErases` | internal/rank-prelude/utils/messaging.cpp:34-38 | with the byte-wise order conversion all messages of one length parse alike |
| `Admission.SerializeToRank` | internal/rank-prelude/include/rankd-api.h:102-130 | the writing loops produce the four fields in order |
| `Admission.Deserialize` | internal/rank-prelude/include/rankd-api.h:53-100 | the reading loops yield the request, or fail exactly on short input or an unknown tag |
| `Admission.FieldKeeps` | internal/rank-prelude/include/rankd-api.h:58-63 | a four-byte field keeps exactly the low eleven bits of its number |
| `Admission.RequestRoundTrip` | internal/rank-prelude/include/rankd-api.h:53-130 | a request comes back (MAC and IPv4 exchanged) exactly when its requirements are shorter than 2048 bytes, its target shorter than 256, and its process id below 2048 |
| `Admission.ExactRoundTrip` | internal/rank-prelude/include/rankd-api.h:20-26 | within those bounds it comes back unchanged exactly for Simulation, IPv6 and DDS targets |
| `Cbor.Emit` | internal/rank-prelude/utils/marshalling/serialization.cpp:54-120 | the recursive walk emits the preorder event stream |
| `Cbor.StreamBuilds` | internal/rank-prelude/utils/marshalling/serialization.cpp:28-52 | feeding a tree's events to the stack builder, whatever is open, appends the tree's item |
| `Cbor.StreamRebuilds` | internal/rank-prelude/utils/marshalling/serialization.cpp:28-52 | the stream of a tree rebuilds to that tree with nothing left open |
| `Cbor.Load` | internal/rank-prelude/utils/marshalling/serialization.cpp:122-187 | the recursive walk over the items builds the JSON tree |
| `Cbor.TreeTripExactly` | internal/rank-prelude/utils/marshalling/serialization.cpp:122-187 | a JSON tree comes back as it was exactly when it has no string leaf, no negative number and no null byte in a key |
| `CborBytes.ItemTrip` | internal/rank-prelude/utils/marshalling/serialization.cpp:3-26 | decoding an encoded item followed by any bytes gives the item and those bytes |
| `CborBytes.DocumentTrip` | internal/rank-prelude/utils/marshalling/serialization.cpp:3-26 | from JSON to bytes and back, whatever follows: the same document exactly when it is faithful |
| `Requirements.TransformToJson` | internal/rank-prelude/utils/marshalling/transformation.cpp:3-59 | the loop writes one object per place, in order, and throws exactly at a CPU item without a value |
| `Requirements.ValidateYang` | internal/rank-prelude/utils/marshalling/validation.cpp:3-65 | the loop with its order counter accepts exactly the documents with known requirements at places 0, 1, 2, ... that pass the schema |
| `Requirements.TransformToRequirements` | internal/rank-prelude/utils/marshalling/transformation.cpp:61-91 | the loop adds one CPU item per entry at its place |
| `Requirements.RequirementsTrip` | internal/rank-prelude/utils/marshalling.cpp:15-30 | requirements sent and received arrive as they were exactly when they are CPU items at consecutive places from 0, and are rejected otherwise |
| `Requirements.ForwardedMeans` | internal/rank-prelude/utils/marshalling/validation.cpp:32-41 | what a node sends on passes the order check of the next node exactly as the protocol model says |
| `Requirements.ReadIsWellFormed` | internal/rank-prelude/utils/marshalling/transformation.cpp:61-91 | requirements read from a payload can be sent on again |
| `Netlink.ParseAttributes` | internal/rankd-time/utils/kernel.cpp:3-20 | the walk terminates, succeeds exactly when aligned attributes tile the buffer, and then maps each masked type to its first attribute and every other type to nothing |
| `Netlink.TilingIsUnique` | internal/rankd-time/utils/kernel.cpp:8-13 | a buffer has at most one tiling |
| `Netlink.FirstOfIs` | internal/rankd-time/utils/kernel.cpp:9-11 | the table entry is an attribute of the type that no earlier one shares |

## Left out

- Real threads, locks and data races: a step is atomic, and the interleavings are those of whole steps.
- Identity of handler objects beyond one process: `Machine` has handler objects whose fields change, but its ledger is the value of `Ledger`; the heap ledger with its aliasing is proved against the same functions in `Resources`, and the two are not one heap.
- `Process::delete_handler` and `Process::store`, which nothing calls, and the `clear_bids` call that is never reached.
- The build for real networks, whose handler branches for IPv4, MAC and IPv6 use undeclared names: listeners are one-byte addresses under length code 0 in the protocol, all five codes in `Wire`.
- When timeouts fire and who arms them: any timeout may happen at any step.
- Documents that trip an assertion of the JSON library or an exception other than invalid_argument, which end the process: the model rejects them like invalid ones.
- The schema library behind `validate_yang`: a predicate on documents, assumed to pass what `transform_to_json` writes.
- The hash that selects a requirement type when it is read: compared by name.
- Rounding of a bid from double to float when it is sent, infinities and NaN: the value of a BID is that of a finite float, any other bid a real number.
- CPU items without a value, which no parser makes: the writer throws at one (`Requirements.TransformToJson`), and the protocol does not forward one as valid.
- The round-trip-time curve with its real exponent: any score in (0,1].
- Other CBOR than the writer produces (byte strings, tags, indefinite lengths, half and single floats): the decoder rejects it.
- `is_within_range`, whose size assertions contradict each other.
- Data sources, senders, receivers, REST engines, configuration, logging and display.
- Host byte order is taken to be little-endian in `Netlink` and in the network order conversion.
- Auctions with more than two neighbours and nested auctions in a whole successful history: `Markets.AuctionSuccess` and `Markets.TieSuccess` have two neighbours; what each step does is proved for any number.
- The reaction of a process that died: there is none, and nothing is said about a session from there on.
- Verdicts.OriginVerdicts: assumes that an id reported as failed is not marked as an origin again.
