# A verified model of the pay-per-packet tunnel

A tunnel is a circle of nodes: the initiator's messages travel out along `chainTo` to an out
gate, and back along `chainFrom` to the initiator. Messages are onions of encrypted
instruction containers; every hop peels its layer, executes a few instructions and passes the
rest on. Hops are paid with signed, growing amounts on virtual payment channels, which control
messages carry once around the circle. This project models that machinery and proves what it
keeps. `dafny verify dfyconfig.toml` checks all of it.

| file | what it models |
|---|---|
| `Settlement`, `ControlBuild`, `ControlMessage`, `HopLedger`, `PaymentRules`, `PaymentDecisions`, `LedgerPrices`, `PaymentSize` | the payment protocol, both ends, over a network that loses, duplicates and reorders, with hops that lose their sections |
| `PrepaidGate`, `SendGate`, `CounterAccount` | spending prepaid packets, at the hop and at the sender, under interleaving, and against what was paid |
| `FeeSolver` | the fee and capacity iteration for opening a channel |
| `SeqnoWindow`, `Word64`, `Delivery`, `Handlers` | the 512-bit replay window, and what it means for delivery over a section's lives, one container at a time and with copies handled at once |
| `Codec`, `PlainCodec`, `Cipher`, `Onion`, `Nest`, `Reassembly`, `Setup` | onions: parsing, layering, peeling, re-sealing, and configuring a whole circle |
| `PeerCounts`, `Relay`, `LiveCounts`, `GatewayRuns`, `HarmlessMessages`, `GatewayLeaks`, `RelayEffects`, `Gateways` | routes, the cached fast path, the out port, tunnels that start here and the reference counts of peers, over whole messages and runs |
| `Arith`, `Bytes`, `Options`, `Limits` | integers, little-endian numbers, exclusive or, missing values, shared limits |

`PaymentRules`, `PaymentDecisions` and `RelayEffects` say what an operation answers in the fields of
its inputs alone, with the source's numbers written out, so that the functions the theorems run on
are compared with something other than themselves.

How the source's pieces appear:

- **Payments.** `Settlement` is a step system. A step builds a control message (it may fail at
  any hop), delivers a copy of any message ever sent to the hop it is addressed to,
  acknowledges at the initiator, changes traffic counters, reconfigures, closes or expires a
  channel, loses a hop's section (it is closed, or the hop restarts or panics: its entries,
  routes and counters go, the payment service keeps its record), or lets time pass. Loss and
  duplication are built in: a message once sent can be
  delivered any number of times, in any order, or never. One `PaymentInstruction.Execute` is one
  step. The main theorems quantify over every run, every position in it and every hop.
- **Interleaving.** `PrepaidGate` and `SendGate` split a call into its atomic loads and stores
  and quantify over every interleaving of any number of workers; `Handlers` does so with looking a
  section up, storing a new one and checking a number.
- **Gateway.** `Relay` says what each instruction does to a whole gateway, executed on the section
  object the message found, which stays usable to that message after the section was removed.
  `GatewayRuns` closes this over messages, expiry, dropped peers and tunnels that open and stop;
  the methods of `Gateways.Gateway` compute the same states in place.
- **Replay window.** Words are integers below 2^64 with explicit shift and or. The in-place word
  loop is proved equal to a 512-bit shift, and the whole object to a number and a set.
- **Fees.** The percent fee is any monotone function of the amount, which covers every rounding
  of the floating-point product; exact rational percents are an instance.
- **Onions.** The cipher is exclusive or with an unspecified keystream of key and IV, CRC64 and
  key agreement are unspecified functions (agreement symmetric), and the TL leaf codecs are
  functions that obey round-trip laws. `PlainCodec` shows that the laws can be met.
- **Mutable state.** Objects the source updates in place are classes (`SeqnoWindow`,
  `PaymentSection`, `RegularOutTunnel`, `Route`, `Gateway`, `PeerTable`, `EncryptionKeys`,
  `Tunnel`, `Initiator`) whose methods are proved against functions of their old state. Go
  pointers to routes and peers are positions in a sequence that only grows.

Where the code does not do what one would expect, the model follows the code and the exact
condition is proved:

- In one life of a section and handled one at a time, no container is executed twice if and only
  if the sender built at most 2^31 + 1 of them (`Delivery.AtMostOnceExactly`): the wrap branch
  forgets the history. Over several lives it holds of no sender that built anything
  (`OnceEverExactly`): a section that expired or was destroyed is created anew by the next
  message, with an empty window and no cache version.
- Two copies of a first container that arrive before the section exists can both be executed: both
  handlers miss the section, and the second stores its own over the first (`RaceExecutesTwice`).
  So with handlers at once, at most once holds if and only if there is nothing to handle, or one
  handler and at most 2^31 + 1 containers (`Handlers.AtMostOnceExactly`). On one section object it
  holds in every interleaving, up to a wrap (`TwiceOnOneObject`).
- Closing a section gives up its peers but keeps its routes, so what a message executes after its
  own destroy can take a reference that nobody gives up, or give one up twice, leaving a live route
  of another section with a peer that is no longer active (`BuiltAfterDestroy`, `DestroyedTwice`).
  The counts of a run are right throughout if and only if nothing after a destroy touches a
  reference, every tunnel that is opened is returned, and none is stopped twice
  (`CountsStayLiveExactly`, `FailedToOpen`, `StoppedTwice`); `AlwaysLiveExactly` says which
  messages are safe on every gateway. A destroy at the end of a message always is.
- A payment state that was already credited is credited again exactly when the section lost its
  entry and at least 300 s are left (`CreditedAgainExactly`); settlement survives that, and
  credits stay bounded in each life of the section.
- The caller gets the capacity it asked for at exact fees if and only if that capacity fits every
  hop at the fees it causes (`FullAndExactExactly`). Otherwise the rounds end in a fixed point or
  alternate between two values for ever (`RoundsSettle`, `RoundsMayOscillate`), and a chain cut
  off in between is quoted with the fees of the previous round; capacities are safe regardless.
- A prepaid counter keeps its floor if and only if fewer than 2^63 packets are credited
  (`FloorExactly`): beyond, a refund wraps it. The bound on packets sent as paid needs no range.
- A payment to an out port with price 0 divides by zero (`NeverPanicsExactlyWhenPriced`).
- A forced control message may sign an amount of 0, which every hop refuses; the message stops
  there and is repeated until the channel expires (`PositiveExactlyWhen`, `StuckBehindNothing`,
  `ForcedToPayNothing`).
- One packet can be sent before anything is paid (`OneAheadIsReached`).

## Model

| member | source | states |
|---|---|---|
| `Settlement.SettlementHolds` | tunnel/regularOutTunnel.go:719-736 | in every run, lost sections and restarted hops included, a payment whose number is at most the last paid acknowledgement is held by its hop, at its amount or more |
| `Settlement.TwoPartyLedger` | tunnel/instructions.go:547-652 | in every run, lost sections included, for every channel of a payer, seen by the hop or not: hop's amount ≤ payer's amount ≤ capacity; value credited in this life of the section ≤ hop's amount |
| `LedgerPrices.LedgerAtOnePrice` | tunnel/instructions.go:573-652 | in every run in which the hop's out port, or its route to the next hop, had one price: the packets credited on a channel are at most the amount held over that price, and exactly that if the section was never lost |
| `LedgerPrices.CreditsCarryPrices` | tunnel/instructions.go:573-645 | in every run, every credit is at a price the hop's out port or route to the next hop had at an earlier moment |
| `LedgerPrices.PaymentsNameTheirHop` | tunnel/regularOutTunnel.go:802-807 | in every run, every payment ever sent to a hop is for its out port at the gate, and for the route to the next hop elsewhere |
| `Settlement.HeldIsSigned` | tunnel/instructions.go:547-652 | a hop holds something only on channels its payer opened |
| `Settlement.PaidIsHeld` | tunnel/regularOutTunnel.go:818-854 | in every run, all a payer counts as paid is held by the hop, except at most the one latest payment still on its way |
| `Settlement.PayerLedger` | tunnel/regularOutTunnel.go:729-764 | in every run, price × paid packets is the sum of signed amounts less what was written off, each payment written off at most once, never negative |
| `Settlement.FailedBuildRaisesNothing` | tunnel/regularOutTunnel.go:682-854 | a build that fails at any hop raises no paid count and no signed amount |
| `Settlement.StepKeepsInv` | tunnel/gateway.go:534-555 | every step of the system keeps the joint invariant of client, network and hops |
| `Settlement.AcknowledgedIsHeld` | tunnel/regularOutTunnel.go:1097-1110 | in any state that satisfies the invariant, acknowledged payments are held |
| `Settlement.PayAllKeeps` | tunnel/gateway.go:549-555 | a whole layer of payments keeps a hop's books and, if none fails, leaves every one of them held |
| `Settlement.PaysInOrder` | tunnel/gateway.go:549-555 | payments of a layer execute in order, and the message passes exactly if each was accepted or processed before |
| `Settlement.AcknowledgementReleases` | tunnel/regularOutTunnel.go:1097-1110 | a first acknowledgement of a paid message releases every payment up to its number; a late or repeated one changes nothing |
| `ControlBuild.RegularOutTunnel.PrepareTunnelControlMessage` | tunnel/regularOutTunnel.go:682-900 | the descending loop with deferred mutations computes exactly the build specification: all payers committed, or only write-offs and openings |
| `ControlBuild.RegularOutTunnel.BuildLayers` | tunnel/regularOutTunnel.go:700-845 | from the last node down, each hop's decision and attached payments, stopping at the first failure |
| `ControlBuild.RegularOutTunnel.DecidePayment` | tunnel/regularOutTunnel.go:719-830 | the statements for one hop, with `MakePayment`, in the source's order compute the decision the theorems are about |
| `PaymentDecisions.BuiltExactly` | tunnel/regularOutTunnel.go:700-900 | a message is built if and only if every layer can be written: encryption works, and where a payment is due there is a channel and its state can be recorded |
| `PaymentDecisions.PaidExactlyWhenDue` | tunnel/regularOutTunnel.go:738-747 | a priced hop is paid if and only if no good payment of it is unacknowledged, and a payment is forced or its balance is half the target or less, counting packets out before the gate, in behind it, and the larger at it |
| `PaymentDecisions.PaymentIs` | tunnel/regularOutTunnel.go:747-836 | everything about that payment: channel, purpose word, packets, amount, final if and only if the channel cannot pay for one packet more than is missing, what goes with it, and what the payer notes |
| `PaymentDecisions.TopsUp` | tunnel/regularOutTunnel.go:747-781 | with room on the channel, the balance afterwards is exactly the target |
| `PaymentDecisions.UnacknowledgedIsResent` | tunnel/regularOutTunnel.go:721-736 | an unacknowledged payment that has not expired goes again alone and nothing changes |
| `PaymentDecisions.OthersAreNotPaid` | tunnel/regularOutTunnel.go:719-720 | no hop is paid without a price or by a message without payments |
| `PaymentDecisions.PublishedIsLeast` | tunnel/regularOutTunnel.go:856-895 | the published minima are the least paid counts out and in, the gate's in both |
| `ControlBuild.RegularOutTunnel.ApplyMutations` | tunnel/regularOutTunnel.go:851-854 | the collected mutations give every payer its committed state |
| `ControlBuild.RegularOutTunnel.TakeMinima` | tunnel/regularOutTunnel.go:856-895 | the two running minima are the least paid counts of the priced hops in each direction |
| `ControlBuild.MinPaidIsLeast` | tunnel/regularOutTunnel.go:857-892 | the published minimum is at most every paying hop's count |
| `ControlBuild.MinPaidIsAttained` | tunnel/regularOutTunnel.go:857-892 | and is some paying hop's count, or still the maximum integer |
| `ControlBuild.BuildAt` | tunnel/regularOutTunnel.go:700-854 | what one build does at each single hop |
| `ControlMessage.PaidPacketsAreAccountedFor` | tunnel/regularOutTunnel.go:729-734 | a payer with books in order has price × paid = signed − written off ≥ 0 |
| `ControlMessage.PlannedPaymentFits` | tunnel/regularOutTunnel.go:766-781 | a decided payment is a whole number of packets within the channel's capacity |
| `ControlMessage.PlanHoldsBack` | tunnel/regularOutTunnel.go:719-764 | deciding, committed or not, raises nothing and keeps the books |
| `ControlMessage.CommitAdvances` | tunnel/regularOutTunnel.go:821-854 | committing raises one channel by price × packets, and every attached instruction is covered |
| `ControlMessage.PlanPaysLatest` | tunnel/regularOutTunnel.go:719-854 | a layer carries only the latest payment and the one just decided |
| `ControlMessage.RequestBoundKept` | tunnel/regularOutTunnel.go:754-764 | deciding and committing keep every channel within the capacity asked for |
| `ControlMessage.AffordableIsSmall` | tunnel/regularOutTunnel.go:766-773 | a channel within the request can pay for at most 30 prepayments |
| `PaymentSize.OpenedWithinRequest` | tunnel/regularOutTunnel.go:467-526 | any channel opened through any solved chain holds between 0 and the request, converged or not |
| `PaymentSize.ChannelsWithinRequest` | tunnel/regularOutTunnel.go:754-764 | in every run, no channel of any payer exceeds the capacity asked for |
| `PaymentSize.PaymentIsSmall` | tunnel/regularOutTunnel.go:766-773 | in every run, at every build and hop: 0 ≤ payment ≤ the quotient converted to int64 ≤ 30 prepayments, below 2^63 at the source's target of 200000, so the conversion loses nothing |
| `PaymentSize.PositiveExactlyWhen` | tunnel/regularOutTunnel.go:747-781 | a decided payment is positive if and only if its channel already carries something, or something is due and affordable |
| `PaymentSize.PassedMeansPositive` | tunnel/instructions.go:472-474 | a hop lets a layer pass only if all its payments are positive |
| `PaymentSize.StuckBehindNothing` | tunnel/regularOutTunnel.go:719-736 | behind an unacknowledged payment of 0 no message with payments passes, whatever the hop's state |
| `PaymentSize.ForcedToPayNothing` | tunnel/regularOutTunnel.go:747-781 | a run (build, deliver, acknowledge, forced build) that ends with a signed, unacknowledged 0 |
| `HopLedger.PaymentSection.ExecutePayment` | tunnel/instructions.go:456-668 | the statements in source order compute the specification, every refusal, panic and first load included |
| `PaymentRules.VerdictExactly` | tunnel/instructions.go:456-652 | for every section, instruction and environment: accepted, panicking or already processed if and only if the guards hold, with 300 s, the minima of 1000 and 10000 packets, purpose and price written out |
| `PaymentRules.RoutePaymentBuys` | tunnel/instructions.go:607-640 | an accepted payment for a route adds the new value over that route's price to its counter and touches nothing else |
| `PaymentRules.OutPaymentBuys` | tunnel/instructions.go:574-605 | an accepted payment for the out port adds the new value over its price to both of its counters |
| `PaymentRules.CreditIsAtPrice` | tunnel/instructions.go:573-645 | the credit is the new value at the price in force |
| `PaymentRules.EntriesAfter` | tunnel/instructions.go:505-546 | the channel entries after any execution, accepted or not |
| `HopLedger.NeverPanicsExactlyWhenPriced` | tunnel/instructions.go:574-605 | no instruction in any environment can divide by zero if and only if the out port, if any, has a price |
| `HopLedger.ExecuteHasShape` | tunnel/instructions.go:547-652 | an execution changes at most its own channel entry, and accepts exactly the difference to what was recorded, only if positive |
| `HopLedger.PayKeepsBooks` | tunnel/instructions.go:505-652 | every execution keeps the hop's ledger and never lowers a recorded amount; success means the payment is held; if the section was never lost, redelivered or older states change no amount and no credit, and a newer one is credited exactly the difference |
| `PaymentRules.CreditedAgainExactly` | tunnel/instructions.go:484-571 | a state no larger than the service's record is credited again if and only if its entry is gone, or active for less, at least 300 s are left and it buys something at the price in force; only after the section was lost |
| `HopLedger.CreditedValueIsPaid` | tunnel/instructions.go:573-645 | packets credited at the prices in force are worth at most the amounts accepted |
| `HopLedger.CreditedExactly` | tunnel/instructions.go:573-645 | at a constant price and whole payments, credited packets are exactly amount over price |
| `PrepaidGate.CreditBound` | tunnel/instructions.go:371-415 | in every interleaving of N workers and however much is credited: packets sent as paid ≤ credited + allowance, + N−1 without the second comparison |
| `PrepaidGate.RouteOverdraft` | tunnel/instructions.go:371-415 | N interleaved routings never send more than credited + 20000 as paid |
| `PrepaidGate.ListenOverdraft` | tunnel/instructions.go:976-1018 | eight listeners never deliver more than credited + 20007 as paid |
| `PrepaidGate.SendOverdraft` | tunnel/instructions.go:931-974 | N senders through an out port overdraw by at most N−1 |
| `PrepaidGate.OverdraftIsReached` | tunnel/instructions.go:371-415 | whatever was credited, some interleaving sends as much beyond it as the bound allows |
| `PrepaidGate.StepKeepsInv` | tunnel/instructions.go:371-415 | every load, decrement, send, refund and credit step keeps the accounting, saturation and wrap-around included |
| `PrepaidGate.CounterIsBalance` | tunnel/instructions.go:371-415 | while fewer than 2^63 packets are credited, the counter is exactly credit less everything drawn and kept, and ≥ −allowance − (N−1) |
| `PrepaidGate.FloorExactly` | tunnel/instructions.go:670-678 | the floor holds of every run that credits fewer than a bound if and only if the bound is at most 2^63 |
| `PrepaidGate.RefundWraps` | tunnel/instructions.go:403-407 | the run beyond: a refund at the largest int64 leaves the smallest |
| `CounterAccount.SentIsPaidFor` | tunnel/instructions.go:573-678 | for a route's counter and both counters of an out port, in every interleaving of payments, packets and price changes: packets let through as paid ≤ packets bought + overdraft, where each entry is new value over the price the section had then, and all bought is worth at most the amounts the hop holds |
| `CounterAccount.OverdraftOf` | tunnel/instructions.go:931-1018 | the overdraft is 20000 for a route, 20007 for eight listeners, N−1 for N senders |
| `CounterAccount.SentAtOnePrice` | tunnel/instructions.go:573-678 | while the route or port had one price: packets let through as paid × price ≤ amounts the hop holds + overdraft × price |
| `CounterAccount.StepKeepsInv` | tunnel/instructions.go:573-678 | payments, packets, any change of routes and out port that leaves the counter, and channel housekeeping keep counter, credits and recorded amounts in step |
| `CounterAccount.PaymentFillsCounter` | tunnel/instructions.go:573-645 | an accepted payment adds the new value over the price in force to the counters of its purpose, both for an out port; nothing else an execution does touches a counter |
| `PrepaidGate.AddPrepaidNeverLowers` | tunnel/instructions.go:670-678 | a credit never lowers a counter, however large, and adds exactly while the sum is below 2^63 |
| `PrepaidGate.Route.Forward` | tunnel/instructions.go:371-415 | alone, a call spends one packet exactly when it routes as paid; a failed send is refunded |
| `SendGate.ConsumedIsPaidFor` | tunnel/regularOutTunnel.go:1203-1227 | in every interleaving of N writers and any builds, packets consumed outbound ≤ paid + written off + N, for every priced outbound hop |
| `SendGate.OneWriterOneAhead` | tunnel/regularOutTunnel.go:1217-1227 | with one writer and nothing written off, at most one packet ahead |
| `SendGate.OneAheadIsReached` | tunnel/regularOutTunnel.go:1217-1227 | that packet is reached, before anything is paid |
| `SendGate.PassesExactly` | tunnel/regularOutTunnel.go:1217-1227 | a writer passes if and only if the count it loaded is at least what was consumed |
| `SendGate.WritesPassExactly` | tunnel/regularOutTunnel.go:1203-1227 | of any number of writes one after the other exactly those pass that reach at most one beyond the published count |
| `SendGate.PaidPacketsPass` | tunnel/regularOutTunnel.go:1203-1227 | after a build that left every outbound hop paid for n more packets, the next n pass |
| `SendGate.BuildCovers` | tunnel/regularOutTunnel.go:856-895 | a build, successful or failed, keeps the published minimum within what every paying outbound hop was ever paid |
| `FeeSolver.BuildTunnelPaymentsChain` | tunnel/regularOutTunnel.go:357-428 | with or without the early break, the result is that of ten full rounds, or the error |
| `FeeSolver.ComputeFees` | tunnel/regularOutTunnel.go:374-391 | the descending loop computes the fees of every suffix of the chain |
| `FeeSolver.LimitCapacity` | tunnel/regularOutTunnel.go:393-399 | one round's new capacity is the least allowed by any hop |
| `FeeSolver.AllowedIsLargest` | tunnel/regularOutTunnel.go:393-399 | one round gives the largest capacity that fits at the given fees |
| `FeeSolver.SolverSafety` | tunnel/regularOutTunnel.go:393-425 | converged or not: every capacity within its limit, 0 ≤ delivered ≤ requested, capacities differ by the fees, fees add up |
| `FeeSolver.ConvergedIsOptimalAndExact` | tunnel/regularOutTunnel.go:370-405 | when the rounds converge, the delivered capacity is the largest feasible one and every hop's fee is exactly max(minimum, percent of what passes) |
| `FeeSolver.BestChain` | tunnel/regularOutTunnel.go:357-428 | at convergence the solver's chain is payable: within every limit, each hop's fee at least its minimum, at least its percentage of what passes, and one of the two; and no payable chain, however computed, delivers more |
| `FeeSolver.NoneDeliversMore` | tunnel/regularOutTunnel.go:357-428 | converged or not, no payable chain delivers more than the solver returns |
| `FeeSolver.FeasibleExactly` | tunnel/regularOutTunnel.go:374-399 | what fits every hop at the fees it causes is exactly what some payable chain delivers |
| `FeeSolver.FullExactly` | tunnel/regularOutTunnel.go:357-428 | the solver returns a payable chain for all that was asked if and only if there is one |
| `FeeSolver.FixedPointIsOptimal` | tunnel/regularOutTunnel.go:370-405 | a fixed point is feasible, above every feasible capacity, and unique |
| `FeeSolver.Bracketing` | tunnel/regularOutTunnel.go:373-405 | x1 ≤ x3 ≤ … ≤ x4 ≤ x2 ≤ x0 for any chain |
| `FeeSolver.OddIsFeasible` | tunnel/regularOutTunnel.go:373-405 | every odd iterate is feasible |
| `FeeSolver.FeasibleBelowEven` | tunnel/regularOutTunnel.go:373-405 | every feasible capacity is at most every even iterate |
| `FeeSolver.TenRounds` | tunnel/regularOutTunnel.go:366-405 | converged or not: the result bounds every feasible capacity, is feasible at its own fees exactly when it is the fixed point, and the fees quoted never exceed the fees due on it |
| `FeeSolver.FullAndExactExactly` | tunnel/regularOutTunnel.go:370-425 | all that was asked for is delivered at exactly the fees due if and only if the request fits every hop at the fees it causes |
| `FeeSolver.ExactQuotesMeanFixedPoint` | tunnel/regularOutTunnel.go:370-425 | for any fee functions, a chain quoted exactly delivers a fixed point |
| `FeeSolver.RoundsSettle` | tunnel/regularOutTunnel.go:373-405 | for every monotone chain the rounds end in two values, each the round of the other, the smaller feasible and the larger above every feasible capacity |
| `FeeSolver.RoundsMayOscillate` | tunnel/regularOutTunnel.go:373-405 | a chain whose rounds alternate for ever |
| `FeeSolver.PercentIsMonotone` | tunnel/regularOutTunnel.go:376-382 | truncated rational percents are monotone |
| `ReplayWindow.SeqnoWindow.CheckSeqno` | tunnel/seqno.go:30-87 | accepts exactly a wrap, a new maximum or an unaccepted number fewer than 512 behind, and records exactly that |
| `ReplayWindow.ShiftRightInPlace` | tunnel/seqno.go:3-28 | the in-place word loop is the 512-bit shift, for every distance |
| `ReplayWindow.ShiftedWordBit` | tunnel/seqno.go:12-27 | each bit of a shifted word is the bit that far back in the window |
| `ReplayWindow.SeqnoWindow.Reset` | tunnel/instructions.go:250-257 | a cache update forgets everything |
| `Delivery.AcceptedIsHistory` | tunnel/seqno.go:30-87 | after any calls, a number is in the window's set exactly when it was accepted since the last wrap reset |
| `Delivery.VerdictByHistory` | tunnel/seqno.go:30-87 | each verdict in terms of the calls before it |
| `Delivery.TwiceOnlyAcrossReset` | tunnel/seqno.go:42-50 | one window accepts a number twice only with a wrap reset in between |
| `Delivery.ContainerTwiceOnlyAcrossForgetting` | tunnel/gateway.go:500-543 | for any events at a section key, handled one at a time: a container is executed twice only if the section was closed or the numbers wrapped in between |
| `Delivery.PacketTwiceOnlyAcrossForgetting` | tunnel/gateway.go:475-487 | a cached packet passes twice only across a closing, an effective cache update or a wrap |
| `Delivery.AtMostOnceExactly` | tunnel/keys.go:55-59 | whatever arrives, handled one at a time, each of the first n containers is executed at most once per life of the section, if and only if n ≤ 2^31 + 1 |
| `Delivery.NumbersAreIssued` | tunnel/keys.go:55-59 | the k-th container bears the number a new sender's counter has then |
| `Delivery.OnceEverExactly` | tunnel/gateway.go:430-453 | over all lives of the section, at most once holds if and only if nothing was built |
| `Delivery.ReplayAfterClosing` | tunnel/gateway.go:500-530 | the run that shows it: one container, the section closed, the same container again |
| `Delivery.ClosedForgetsAll` | tunnel/gateway.go:500-530 | after a closing every container passes again, except number 0, and any cache version takes effect |
| `Delivery.FirstArrivalPasses` | tunnel/seqno.go:30-87 | in each life, a first arrival fewer than 512 behind the furthest passes |
| `Delivery.CachedAtMostOncePerVersion` | tunnel/gateway.go:475-499 | on the cached path, at most once per cache version and life of the section |
| `Delivery.CachedFirstArrivalPasses` | tunnel/gateway.go:484-487 | and a first arrival within a version passes |
| `Delivery.LifeIsFreshRuns` | tunnel/instructions.go:207-262 | each life is a fresh run of the window, each cache version in it a fresh run of the cached window |
| `Delivery.LifeGrows` | tunnel/instructions.go:207-262 | within a life versions never go back and runs only grow |
| `Delivery.SameLifeExactly` | tunnel/gateway.go:447-453 | two moments are in one life if and only if the section was not closed in between |
| `Handlers.TwiceOnOneObject` | tunnel/gateway.go:539-543 | in every interleaving of any number of handlers, closings included: one section object passes a container twice only if its window wrapped in between |
| `Handlers.TwiceOnlyByWrapClosingOrRace` | tunnel/gateway.go:500-543 | in every interleaving: a container passes twice at a key only after a wrap, a closing, or a section stored over another |
| `Handlers.OverwrittenByTwoMisses` | tunnel/gateway.go:501-529 | a section is stored over another only if two handlers both missed it, one storing its own while the other still held its miss |
| `Handlers.AloneNeverOverwrites` | tunnel/gateway.go:501-529 | one handler never stores a section over another |
| `Handlers.RaceExecutesTwice` | tunnel/gateway.go:501-543 | the run in which two copies of the first container both pass |
| `Handlers.AtMostOnceExactly` | tunnel/gateway.go:500-543 | with h handlers and the first n containers, in every interleaving without a closing, at most once holds if and only if h = 0, n = 0, or h = 1 and n ≤ 2^31 + 1 |
| `Handlers.SerialIsLife` | tunnel/gateway.go:500-543 | one handler taking containers one after the other passes exactly those the section's life passes |
| `Codec.ContainerRoundTrip` | tunnel/instructions.go:82-131 | parsing a serialized container followed by any bytes gives it back, nested caches included, and exactly those bytes |
| `Codec.ContainerExactly` | tunnel/instructions.go:82-131 | with leaves read only from what writes them, bytes parse as a container and a rest if and only if they are its serialization and that rest |
| `Codec.ContainerLayout` | tunnel/instructions.go:111-131 | constructor number, own number and count of instructions, in this order, in four bytes each |
| `Codec.ParseOneOf` | tunnel/instructions.go:152-205 | the same for one instruction of any nesting |
| `Codec.ParseList` | tunnel/instructions.go:88-109 | the parse loop computes the recursive parser, on any bytes |
| `Codec.ParseInstruction` | tunnel/instructions.go:152-185 | one step of it, recursing through caches |
| `PlainCodec.PlainIsLawful` | tunnel/instructions.go:82-131 | a codec with length-prefixed fields obeys every law asked of the TL library and writes every instruction |
| `PlainCodec.PlainIsStrict` | tunnel/instructions.go:82-131 | it reads nothing but what it writes |
| `PlainCodec.SetupIsPossible` | tunnel/regularOutTunnel.go:902-984 | with it, the hypotheses of the setup theorems can be met together |
| `StreamCipher.DecryptEncrypt` | tunnel/gateway.go:596-642 | what was encrypted decrypts to itself, and no guard rejects it |
| `StreamCipher.DecryptExactly` | tunnel/gateway.go:624-642 | for all keys and bytes: they decrypt to a plaintext if and only if it is not empty and they are an encryption of it under that key |
| `StreamCipher.EncryptionIs` | tunnel/gateway.go:596-622 | masked checksum, random bytes, and a body their keystream turns into the plaintext |
| `StreamCipher.DecryptStream` | tunnel/gateway.go:624-642 | the in-place pass over the receive buffer computes decryption, touching only the body, and succeeds if and only if the buffer was an encryption of what it leaves |
| `Onion.EncryptionKeys.EncryptInstructionsMessage` | tunnel/keys.go:50-74 | the counter moves by one, wrapping, and numbers the sealed container; an empty list is refused |
| `Onion.BothEndsAgree` | tunnel/keys.go:20-32 | sender and receiving section derive the same keys |
| `Onion.OpenSeal` | tunnel/gateway.go:577-594 | a section opens exactly the container sealed for it, and the rest |
| `Onion.OpenExactly` | tunnel/gateway.go:577-594 | a container and a rest come out if and only if the data is an encryption, under this section's keys, of bytes that parse so |
| `Onion.OpenedWasSealed` | tunnel/gateway.go:577-594 | with leaves read only from what writes them: data opens as container and rest if and only if it was sealed so for this section |
| `Onion.PeelOnion` | tunnel/gateway.go:577-594 | for any layers, after j hops hop j opens exactly its container and passes on the byte-exact message for hop j+1, nothing after the last |
| `Nests.SameMeaningSameSize` | tunnel/regularOutTunnel.go:555-572 | the same onion under other numbers and random bytes has the same length, at every depth |
| `Nests.SealSame` | tunnel/regularOutTunnel.go:632-637 | sealing a rebuilt layer around a rebuilt rest gives the same onion |
| `Nests.IssuedIsLarger` | tunnel/keys.go:55-59 | while no counter wraps, numbers issued later are larger in every layer |
| `Reassembly.Tunnel.ReassembleMessage` | tunnel/regularOutTunnel.go:555-572 | for every onion built over distinct sections, wrapping counters included: same length, so the panic is unreachable, same payload, same instructions at every hop and depth, every layer under a number issued meanwhile; larger numbers while no counter wraps |
| `Reassembly.Tunnel.Reassemble` | tunnel/regularOutTunnel.go:574-641 | terminates on any bytes; for an honest onion returns the same onion, nested ones included, newly numbered |
| `Reassembly.Tunnel.ResolveSection` | tunnel/regularOutTunnel.go:528-553 | the first section with the key, and its successor on the circle |
| `Reassembly.Tunnel.DecodeLayers` | tunnel/regularOutTunnel.go:580-630 | the outer loop takes an onion apart layer by layer |
| `Reassembly.Tunnel.EncodeLayers` | tunnel/regularOutTunnel.go:632-641 | the descending loop seals it again under newly issued numbers |
| `Reassembly.OpenedBindsAreShorter` | tunnel/regularOutTunnel.go:586-617 | on any bytes, nested instruction bytes are strictly shorter |
| `Setup.SetupConfiguresEveryHop` | tunnel/regularOutTunnel.go:902-984 | for chains of any length: one init onion, met by accepting sections, fresh or in use, leaves every relay, the out gate and the initiator's section configured as specified, and arrives at the initiator |
| `Setup.SetupAndReconfigure` | tunnel/regularOutTunnel.go:307-315 | a fresh circle is configured, and a later message of the same tunnel, other prices and receiver included, configures it once more |
| `Setup.FreshIsReceptive` | tunnel/gateway.go:506-528 | a section just created takes the message |
| `Setup.ConfiguredIsReceptive` | tunnel/instructions.go:298-346 | a section configured before takes a later one, its routes still fitting the limit |
| `Setup.GatewaysDeriveTheKeys` | tunnel/gateway.go:506-520 | a gateway derives from its private key and the section key the keys the initiator sealed with |
| `Setup.NodeIsConfigured` | tunnel/gateway.go:534-555 | one hop of that run, from the bytes received to the bytes sent |
| `Setup.WithinLimits` | tunnel/instructions.go:277-302 | no layer exceeds five instructions and no section ends with more than three routes |
| `Setup.RelayExecutes` | tunnel/regularOutTunnel.go:197-248 | a relay ends with routes id and its complement to the next section and a cache of the paid one |
| `Setup.GateExecutes` | tunnel/instructions.go:691-801 | the out gate ends bound, with its system route and a cache of sending out, and sends the back onion |
| `Setup.InitiatorExecutes` | tunnel/instructions.go:870-886 | the initiator's section delivers and caches delivery |
| `Setup.RepeatIsRefused` | tunnel/gateway.go:539-543 | the same message delivered again at any node, while its section lives, changes nothing |
| `Setup.CachedPacketsArrive` | tunnel/gateway.go:475-499 | afterwards cached packets travel from any outbound node to the out port and from any inbound node to the initiator |
| `Setup.ExecuteInOrder` | tunnel/gateway.go:549-555 | the instruction loop stops at the first failure and keeps what was done before |
| `Setup.TakenExactly` | tunnel/instructions.go:279-302 | the guards of every instruction of an init message, for every policy and section; a refused one changes and sends nothing |
| `Setup.RefusedMessage` | tunnel/gateway.go:534-547 | a message that does not open, repeats a number or holds more than five instructions sends nothing and changes at most the window |
| `Setup.Initiator.PrepareInitMessage` | tunnel/regularOutTunnel.go:902-984 | the two descending loops build exactly the init onion of the run above, every counter moving by one |
| `PeerCounts.PeerTable.AddPeer` | tunnel/peer.go:42-74 | the active peer of an id is reused, otherwise a new one becomes active |
| `PeerCounts.PeerTable.AddReference` | tunnel/peer.go:137-139 | one reference more, nothing else |
| `PeerCounts.PeerTable.Dereference` | tunnel/peer.go:152-169 | one reference fewer, whether or not one was taken; with none left the id is no longer active |
| `PeerCounts.PeerTable.Kill` | tunnel/peer.go:141-150 | the id is no longer active |
| `PeerCounts.OneMoreReleased` | tunnel/gateway.go:677-679 | dereferencing peers one by one, in whatever order, is one release of them all |
| `PeerCounts.ReleasedStaysLive` | tunnel/peer.go:152-169 | releasing references that are counted leaves the rest counted and every referenced peer active |
| `Relay.ExecuteIsSound` | tunnel/instructions.go:207-358 | any instruction on any section object, closed or not, keeps at most three routes, each made for that object and leading to a peer with its ADNL id, and every cached route action the object its id names |
| `RelayEffects.BuildsExactly` | tunnel/instructions.go:279-302 | a route is built if and only if routing is allowed, the price is not too low, and the id is known or fewer than three are |
| `RelayEffects.BuildStores` | tunnel/instructions.go:291-346 | then the route named leads to the ADNL id, section key and price asked for, keeps object and credit if it existed and has none if not, and no other route or section changes |
| `RelayEffects.BindsExactly` | tunnel/instructions.go:691-725 | a port is bound if and only if allowed, with address, key and, at first, a port, and priced high enough if payments are on; a refused bind changes nothing |
| `RelayEffects.BindStores` | tunnel/instructions.go:715-780 | then it leads to the peer, section, instructions and receiver asked for at the price asked for, 0 without payments, and nothing else of the section changes |
| `RelayEffects.CachesExactly` | tunnel/instructions.go:207-262 | a cache list takes effect if and only if it is newer and all of it is known, and then replaces the cache entry by entry |
| `RelayEffects.ExecutesInOrder` | tunnel/gateway.go:549-555 | the first instruction, then the rest on what it left, unless it failed |
| `RelayEffects.MessageIsHandled` | tunnel/gateway.go:500-555 | a section is there afterwards; more than five instructions do nothing else |
| `RelayEffects.ClosingRemovesKey` | tunnel/gateway.go:447-453 | a section that expires or is destroyed loses its key and no other does |
| `RelayEffects.DropsExactly` | tunnel/gateway.go:388-391 | a peer stops being active if and only if it has no references, and no other does |
| `RelayEffects.OpeningRegisters` | tunnel/regularOutTunnel.go:155-195 | an opened tunnel is registered and holds the active peer of its first hop |
| `LiveCounts.AttachedStaysLive` | tunnel/instructions.go:279-358 | every instruction of a section in the gateway keeps references = live routes + out ports + tunnels not stopped, and referenced peers active |
| `LiveCounts.DetachedExactly` | tunnel/gateway.go:667-690 | an instruction on a section object that is gone keeps them if and only if it takes and gives up no reference: the guard is on object and instruction before the call |
| `LiveCounts.ClosedAgainExactly` | tunnel/instructions.go:136-143 | a second destroy keeps them if and only if the object has no route and no out port |
| `LiveCounts.SameAdnlSamePeer` | tunnel/instructions.go:291-322 | with live counts, building a route again for the same ADNL id finds the peer it already leads to |
| `GatewayRuns.MessageExactly` | tunnel/gateway.go:549-555 | for every message on every section of every live gateway: the counts are live at every instruction if and only if nothing after a destroy touches a reference |
| `HarmlessMessages.AlwaysLiveExactly` | tunnel/gateway.go:549-555 | for every list of instructions: the counts stay live on every live gateway under every policy, if and only if no instruction after a destroy that can be reached destroys again or leads a route or the out port where the list had not led it before |
| `HarmlessMessages.ExecuteSettles` | tunnel/instructions.go:298-346 | an instruction that succeeded leaves exactly the route it names leading to its ADNL id, or the out port, and no other moved |
| `HarmlessMessages.QuietIsHarmless` | tunnel/instructions.go:136-143 | a message that neither destroys nor builds nor binds after a destroy, so one that ends with its destroy, is of this kind |
| `HarmlessMessages.HarmlessRunIsLive` | tunnel/gateway.go:462-560 | in every run of such messages, with tunnels that open and are stopped once, the counts are live at every operation and instruction |
| `GatewayRuns.OpenedExactly` | tunnel/regularOutTunnel.go:133-195 | creating a tunnel keeps the counts live if and only if it returns the tunnel: one refused for want of payments keeps its reference |
| `GatewayRuns.StoppedExactly` | tunnel/regularOutTunnel.go:1267-1302 | stopping a tunnel keeps the counts live if and only if it was not stopped before |
| `GatewayRuns.OpExactly` | tunnel/gateway.go:462-560 | for every operation on every live gateway: live after it and at each of its instructions if and only if it is clean in this sense |
| `GatewayRuns.CountsStayLiveExactly` | tunnel/peer.go:137-169 | from an empty gateway, over any sequence of operations: every peer's references are at all times exactly the live routes, out ports and tunnels that lead to it, a referenced peer being the active one of its id, if and only if every operation is clean |
| `GatewayRuns.NextIsSound` | tunnel/gateway.go:462-560 | whatever happens, clean or not, no reference to a route, peer or section dangles |
| `GatewayRuns.FastPathMeetsSlowPath` | tunnel/instructions.go:417-444 | in every run, clean or not: a cached route action is the route object its id names in that section, so peer, section key and credit are the same as for a route instruction |
| `GatewayRuns.RouteLeadsToActivePeer` | tunnel/instructions.go:291-322 | in every clean run, every route of every section leads to the active peer of its ADNL id |
| `GatewayLeaks.DestroyedTwice` | tunnel/instructions.go:136-143 | a run with two destroys in one message, after which a live route of another section leads to a peer without references that is not active |
| `GatewayLeaks.BuiltAfterDestroy` | tunnel/instructions.go:311-312 | a run with a route built after a destroy, whose peer keeps a reference nothing live holds |
| `GatewayLeaks.StoppedTwice` | tunnel/regularOutTunnel.go:1299-1302 | a run with a tunnel stopped twice, after which a live route leads to a peer without references |
| `GatewayLeaks.FailedToOpen` | tunnel/regularOutTunnel.go:173-183 | a tunnel refused for want of payments leaves a reference on its first hop |
| `Gateways.Gateway.BuildRoute` | tunnel/instructions.go:279-358 | in place, the state and the refusals of the model: a new route is a new object, an existing one keeps object and credit, its peer moves only with the ADNL id |
| `Gateways.Gateway.BindOut` | tunnel/instructions.go:691-801 | refused when not allowed, without address, key or port, or priced too low; otherwise the out port leads to the asked peer, its reference moving only with the ADNL id |
| `Gateways.Gateway.UpdateCache` | tunnel/instructions.go:207-262 | only a newer, fully resolvable list replaces the cache, with the route objects named now |
| `Gateways.Gateway.CloseRoutes` | tunnel/gateway.go:677-679 | the loop over the routes releases each peer as often as routes lead to it, in any order |
| `Gateways.Gateway.CloseSection` | tunnel/gateway.go:667-690 | every route and the out port give up their peer, the key goes, the object keeps what it had |
| `Gateways.Gateway.ExecuteMessage` | tunnel/gateway.go:549-555 | the loop executes in order on one object until an instruction fails |
| `Gateways.Gateway.HandleMessage` | tunnel/gateway.go:500-555 | a section is created for an unknown key, and more than five instructions are refused |
| `Gateways.Gateway.OpenTunnel` | tunnel/regularOutTunnel.go:133-195 | first hop found and referenced, then refused or registered |
| `Gateways.Gateway.StopTunnel` | tunnel/regularOutTunnel.go:1299-1302 | the first hop is dereferenced, stopped before or not |
| `Gateways.Gateway.DropPeer` | tunnel/gateway.go:388-391 | a peer without references is dropped, any other stays |
| `Gateways.Gateway.Do` | tunnel/gateway.go:462-560 | each operation leaves the state the model names |
| `Gateways.RunGateway` | tunnel/gateway.go:462-560 | so does any sequence of them, from a new gateway |

## Left out

- The TL, cell, ed25519, cipher and CRC libraries: unspecified functions with the laws named above.
- The payment service: opening, metadata and resolving succeed or fail freely; its record of a channel is assumed to keep the largest state it was given, over restarts too.
- One channel key shared by two sections: the ledger is per section.
- Interleaved first loads of one channel key (`tunnel/instructions.go:530-537`): each payment execution is one step, so the ledger theorems are for serialized execution.
- The leaky-bucket rate and the wall clock: a free boolean and values that never go back. In `Setup` a route takes the init message, as a new route always does and one in use may not.
- `addPrepaid`: the load and the store or addition are one step.
- The earliest channel deadline that `prepareTunnelControlMessage` also returns: it only schedules the next message.
- Codec.ContainerExactly: asks that a leaf is read only from what writes it, which the TL library does not promise of padding; `Codec.ContainerRoundTrip` does not ask it.
- 64-bit overflow of `PaidPackets` and of the traffic counters: unbounded integers.
- Setup.Execute: models the instructions of an init message, on section values; updating routes, caches, peers and channel entries in place is modelled by the classes of `Gateways` and `HopLedger`, and payments, sending out and destroying in their own modules.
- Setup.Circulate: follows one message at a time around the circle; two init messages under way at once are not modelled.
- CounterAccount.SentIsPaidFor: covers one life of the section, which a division by zero ends.
- Gateways.Gateway.DropPeer: the check for zero references and the removal are one step.
- Gateways.Gateway.HandleMessage: operations on one gateway are handled one at a time, so a lock that makes `closeIfNotLocked` give up and sections stored over another by two handlers do not occur in `GatewayRuns`; the second is modelled for deliveries in `Handlers`.
- Delivery.AtMostOnceExactly: containers of one section are handled one at a time; `Handlers` drops this.
- Handlers.AtMostOnceExactly: the cached path and its cache versions under interleaving are not modelled.
- `PaidChannelFee` and `CalcPaidAmount`: running totals of fees for display, read by nothing else.
- The slice `fees` of the solver: written and never read.
- `prepareTunnelCloseMessage`: the sealing loop of `Setup` with layers that route on and destroy; the closing it causes is modelled, building the message is not.
- `prepareInitMessage` after the configuring state: the same loops with lists that only route and refresh the cache.
- `ReportStatsInstruction` and `DeliverInstruction`: they only print.
- Sockets, goroutines, buffer pools, logging, metrics, pings, peer discovery, configuration files, the console and the foreign-function interface.
