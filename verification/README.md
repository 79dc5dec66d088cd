# Permanent Collection: a verified model

Permanent Collection buys CryptoPunks with one live bid, puts each through a
72-hour return auction, and vaults the ones nobody returns, one permanent trait
at a time, until all 111 traits are collected. This project models that protocol,
the scripts that prepare data for it and drive it, the pages that show it and the
documentation compiler that describes it, and proves what they promise.

The modules, from the bottom up:

- `TraitMasks`: 111-bit trait masks; the three ways the repository walks them,
  population and rarity counts.
- `Collection`: the records core (`PermanentCollection.sol`) with its invariant,
  the canonical target and the sole-carrier guard.
- `ReturnAuctions`: auction arithmetic, in the contract and on the auction page.
- `Protocol`, `ProtocolSafety`, `ProtocolRuns`, `ProtocolTheorems`: the contracts
  as one state machine of eleven kinds of transaction, the invariant of every
  reachable state, and what holds over every run.
- `ProtocolEffects`, `Refusals`: what each transaction records and moves, and why one
  is refused, in full.
- `CollectionGame`, `GameRuns`, `Stranding`, `StrandingExample`: the collection rules as
  a game on the dataset, its equivalence with runs of the protocol, and which traits
  can be lost for good.
- `Chain`: the same contracts as storage overwritten in place, every method
  proved against the state machine.
- `LiveBid`, `LiveBidRuns`: the adapter that meters ETH into the live bid, and what
  its throttle promises over every run.
- `SeedSteps`, `SettleOrder`, `SeedFunding`, `SeedAcquisitions`: the seed driver that
  funds, opens, rescues and settles whole batches of auctions on `Chain`.
- `PunkTargets`: from a wallet's Punks to the targets the page shows, compared
  with the contract's own derivation.
- `GreedyPairs`, `CanonicalPicks`, `CanonicalBlob`: the pair picker, the exemplar
  picker and its hex blob with the decoder.
- `ReceiptWatch`, `AcceptRace`, `AcceptOutcomes`, `AcceptWatchers`: the transaction
  machines of the frontend, with every interleaving of wallet, chain, reads, receipts
  and React commits.
- `BidChips`: displayed minimum, quick-bid chips and validity, down to the
  strings.
- `Texts`, `Prose`, `ProseFacts`, `ProsePrinter`, `ContractPage`, `Overloads`: the prose
  parser of the documentation compiler and its ABI matcher.

`dafny verify dfyconfig.toml` checks everything.

## Conventions

Amounts are unbounded naturals; the 128-bit bound on a reserve is explicit. A
transaction is a function from state to state or to the error it reverts with,
and a reverted one changes nothing. What depends on other contracts or accounts
is a parameter: whether a refund, a finder's or referrer's payment or the pool's forward
succeeds, whether a seller is allowlisted, what the network does to a script's
call. `Sealed` states what the contract pins about its dataset: 10,000 masks of
111 bits, the pinned carrier counts are the true ones, and trait 23 alone has a
single carrier, Punk #8348. The page's clients, wallets and servers are modelled
by the events they cause.

## Where code and documentation differ

The model follows the code in each case.

- The reserve is rounded up (contracts/src/ReturnAuctionModule.sol:360-375), while
  README.md:33 writes a plain division.
- The auction page shows 25% of cost as the burn share; the contract gives the burn
  share the rounding dust of all three slices. They agree exactly when the cost is
  a multiple of 20 wei (`FallbackMatchesContract`).
- The page's minimum next bid is the contract's exactly for a standing bid of at
  least 100 wei, or a positive reserve without a bid (`ShownFloorIsExact`).
- scripts/seed-title-threshold.ts lists its picks at price zero, which the contract
  refuses in every state (`ZeroPriceIsRefused`).
- A follow-up read after a reverted acceptance asks about the Punk selected on the
  page, not the transaction's own. `RevertFailsIff` says, whatever happens before the
  answer, exactly when a lost race is still shown as a failure; `OtherSelectionFails`
  is a run.
- `finalizedExternally` can be set by the session's own acceptance
  (`OwnAcceptCalledExternal`). Over any run, every answer that sets it is about a Punk
  someone else recorded if and only if no answer gets through from a read served after
  the session's own acceptance of its Punk was mined (`ExternalRightIff`).
- An `access:` line with nothing but white space after the colon takes the first line
  of the body that has anything on it (`BlankAccessSwallows`). The line's own text is
  taken, and the body left alone, exactly when something else follows the colon on
  that line (`AccessExactIff`, and `AccessReadsBackIff` for printed blocks).
- scripts/seed-acquisitions.ts:251-252 says a seed whose trades fall short still
  completes by minting. One sweep of the minted buffer reaches what is needed exactly
  under `MintReaches` (`MintReachesIff`): on a fresh deployment whatever the trades did
  (`FreshIsFunded`), but through the throttle only once the latest acquisition is one
  of the script's own (`RerunNeedsDrip`; `RerunFallsShort` is a case).
- docs/MISSION_PROPERTIES.md:98-100 says that no mechanic can make a trait
  uncollectable and that no single acquisition consumes the last path to one. The
  contracts keep this for the traits that are the first choice of every Punk carrying
  them (`LeadingNeverStranded`), the sole carrier's among them. For others a run can
  vault every carrier for other traits (`StrandingRun`), and then no run ever collects
  the trait (`StrandedForever`). A run does so exactly when it settles, unsold, the
  last carrier outside the vault for another trait (`RunStrandsIff`), and one exists
  exactly when the game on the dataset has such a play (`StrandableIff`).
- The page and the contract would derive different targets for Punk #8348 while
  trait 23 is in flight with another Punk; no reachable state with #8348 acquirable is
  like that (`PageMatchesContract`, `AcquirableNeverReserved`).

## Model

| member | source | states |
|---|---|---|
| `TraitMasks.BitIsShift` | scripts/seed-title-threshold.ts:126-136 | testing a bit is shifting the mask down and looking at the last digit |
| `TraitMasks.BitsOf` | scripts/seed-title-threshold.ts:126-136 | the shifting loop lists the set bits |
| `TraitMasks.BitsExact` | scripts/seed-title-threshold.ts:126-136 | a position is listed if and only if its bit is set |
| `TraitMasks.BitsAscend` | scripts/seed-title-threshold.ts:126-136 | the list is strictly ascending |
| `TraitMasks.BitsRebuild` | scripts/seed-title-threshold.ts:126-136 | the listed powers of two sum to the mask |
| `TraitMasks.CountBits` | scripts/pick-canonical-punks.ts:34-41 | the population count is the length of the list of set bits |
| `TraitMasks.TraitBitsFromMask` | app/components/AcceptBidFlow.tsx:2221-2227 | the 111-position loop lists the set bits below 111 |
| `TraitMasks.WalkersAgree` | app/components/AcceptBidFlow.tsx:2221-2227 | both walkers return the same list if and only if the mask is below 2^111 |
| `TraitMasks.SetBitIsOr` | contracts/src/PermanentCollection.sol:487-535 | setting a bit changes that bit only and adds one to the count exactly when it was clear |
| `TraitMasks.CountRarity` | scripts/snapshot-punksdata.ts:170-176 | each rarity counter ends at the number of Punks carrying the trait |
| `TraitMasks.RaritySumsToBits` | scripts/snapshot-punksdata.ts:170-176 | double counting: over any number of 111-bit masks the rarity table sums to the total of population counts |
| `Collection.ScanIsRarest` | contracts/src/PermanentCollection.sol:611-632 | the canonical scan returns the rarest open trait of the Punk, lowest index on ties, and nothing exactly when none is open |
| `Collection.CanonicalIff` | contracts/src/PermanentCollection.sol:597-610 | a trait is the canonical target if and only if it is open and no open trait of the Punk is rarer |
| `Collection.SoleCarrierUnique` | contracts/src/PermanentCollection.sol:125-155 | Punk #8348 is the one carrier of trait 23 |
| `Collection.SoleCarrierFate` | contracts/src/PermanentCollection.sol:125-155 | in every reachable storage trait 23 is pending exactly with #8348 in auction and collected exactly with #8348 vaulted |
| `Collection.CanonicalSubsumesGuard` | contracts/src/PermanentCollection.sol:401-406 | the sole-carrier guard never rejects a canonical target |
| `Collection.RecordSucceedsIff` | contracts/src/PermanentCollection.sol:357-471 | recording succeeds if and only if the Punk is acquirable, the seller real, the mask its own and the target canonical; every other check is implied |
| `Collection.RecordKeeps` | contracts/src/PermanentCollection.sol:357-471 | recording keeps the core's invariant: claims one to one with Punks in flight, history frozen, attempts exact |
| `Collection.MarkKeeps` | contracts/src/PermanentCollection.sol:487-535 | settling an in-flight Punk always succeeds, keeps the invariant, and a vaulting finds its target still open |
| `Collection.EmptyCore` | contracts/src/PermanentCollection.sol:224-289 | the deployed core satisfies the invariant |
| `Collection.SealedIsPossible` | contracts/src/PermanentCollection.sol:125-155 | what the contract states of its dataset can be met |
| `ReturnAuctions.ReserveAboveCost` | contracts/src/ReturnAuctionModule.sol:344-394 | the reserve is the least amount at or above cost * (101 + attempts) / 100, always above cost |
| `ReturnAuctions.SplitConserves` | contracts/src/ReturnAuctionModule.sol:494-718 | a cleared split pays out every wei of the bid; the referrer's share comes out of the premium only |
| `ReturnAuctions.ShownFloorIsExact` | app/components/AuctionDetailView.tsx:133-139 | the shown minimum is exactly the contract's floor if and only if the bid is at least 100 wei or the unbid reserve is positive |
| `ReturnAuctions.ShownFloorIs` | app/components/AuctionDetailView.tsx:133-139 | the shown minimum is the reserve, or a hundredth, rounded down, above a standing bid |
| `ReturnAuctions.TopBid` | app/components/AuctionDetailView.tsx:120-126 | the reduction returns the first entry of the largest amount |
| `ReturnAuctions.RunGrows` | app/components/AuctionDetailView.tsx:133-139 | after k further accepted bids the price is at least reserve + k * (reserve / 100) |
| `ReturnAuctions.RunRises` | contracts/src/ReturnAuctionModule.sol:433-491 | accepted bids strictly rise |
| `ReturnAuctions.TopIsLatest` | app/components/AuctionDetailView.tsx:120-126 | in whatever order the bids are listed, the largest is the latest bid with its bidder |
| `ReturnAuctions.ShownHighIsLatest` | app/components/AuctionDetailView.tsx:118-129 | the shown high bid and bidder are the standing ones, even with an older server snapshot |
| `ReturnAuctions.FallbackConserves` | app/components/AuctionDetailView.tsx:239-259 | the fallback rows are 65% and a quarter of cost, rounded down, and the rest of the winning bid, which is at least a tenth of cost plus the premium |
| `ReturnAuctions.FallbackMatchesContract` | app/components/AuctionDetailView.tsx:243-259 | the fallback rows are the contract's shares if and only if cost is a multiple of 20 wei |
| `ProtocolRuns.AcquireKeeps` | contracts/src/Patron.sol:434-455 | an acquisition keeps custody, listings, Proofs, auctions and solvency consistent |
| `ProtocolRuns.AcceptBidKeeps` | contracts/src/Patron.sol:479-516 | `acceptBid` keeps the protocol invariant |
| `ProtocolRuns.AcceptListingKeeps` | contracts/src/Patron.sol:520-570 | `acceptListing`, with its finder fee, keeps the protocol invariant |
| `ProtocolRuns.PlaceBidKeeps` | contracts/src/ReturnAuctionModule.sol:433-491 | bidding keeps the module's balance equal to standing bids plus queued refunds |
| `ProtocolRuns.WithdrawKeeps` | contracts/src/ReturnAuctionModule.sol:723-730 | a withdrawal keeps the module's balance equal to standing bids plus queued refunds |
| `ProtocolRuns.VaultedSettles` | contracts/src/ReturnAuctionModule.sol:500-560 | the vault outcome never reverts: it collects an open trait and mints its Proof, with the next number, to the seller of record |
| `ProtocolRuns.ClearedKeeps` | contracts/src/ReturnAuctionModule.sol:494-718 | the cleared outcome never reverts and keeps the invariant |
| `ProtocolRuns.SettleLands` | docs/MISSION_PROPERTIES.md:103 | from any reachable state an ended auction can be settled by anyone: no pending trait is ever wedged |
| `ProtocolRuns.StepKeeps` | docs/MISSION_PROPERTIES.md:31-36 | every kind of transaction keeps the invariant |
| `ProtocolRuns.InitialInv` | contracts/src/PermanentCollection.sol:224-289 | the deployed protocol satisfies the invariant, so every reachable state does |
| `ProtocolTheorems.TargetsDistinct` | README.md:27 | Punks in flight have pairwise distinct, uncollected targets |
| `ProtocolTheorems.PendingHasSale` | README.md:66-70 | a pending trait is the target of an unsettled auction |
| `ProtocolTheorems.CountsAgree` | README.md:38 | vaulted Punks, Proofs and collected traits are equally many, and a trait is collected if and only if its Proof exists |
| `ProtocolTheorems.AcceptBidIff` | contracts/src/Patron.sol:479-516 | `acceptBid` goes through if and only if the Punk is listed to the hub at a positive price within bid and cap, acquirable, with its canonical target and a reserve of 128 bits |
| `ProtocolTheorems.AcceptListingIff` | contracts/src/Patron.sol:520-570 | the same for public listings, with the half-ether gate, a finder who can be paid, and a fee within half a percent and its cap |
| `ProtocolEffects.BidRecords` | contracts/src/Patron.sol:434-516 | an accepted bid adds one row with the lister as acquirer and original seller at the listed price, opens a 72-hour auction, and the bid falls by the price owed to the lister |
| `ProtocolEffects.ListingRecords` | contracts/src/Patron.sol:520-570 | an accepted listing adds one row with the finder as acquirer and the lister as original seller; the bid falls by the price and by a fee of half a percent, rounded down and at most a hundredth of an ether, paid to the finder |
| `ProtocolEffects.BidSetsThreshold` | contracts/src/LiveBidAdapter.sol:641-686 | after an accepted bid the next sweep acts on three quarters of its price, at most 100 ether |
| `ProtocolEffects.ListingKeepsThreshold` | contracts/src/LiveBidAdapter.sol:641-686 | after an accepted listing of someone else's the threshold stays |
| `ProtocolEffects.UnsoldSettles` | contracts/src/ReturnAuctionModule.sol:500-580 | an unsold settlement collects exactly its trait, mints its Proof to the seller of record with the next number, vaults the Punk and closes its auction; no other Punk, trait or auction changes |
| `ProtocolEffects.SoldSettles` | contracts/src/ReturnAuctionModule.sol:494-718 | a sold settlement gives the Punk to the high bidder and closes its auction; nothing is collected or minted |
| `Refusals.BidDecided` | contracts/src/Patron.sol:479-516 | `acceptBid` goes through if and only if none of its checks fails, and otherwise reverts with the first that does, in the contract's order |
| `Refusals.ListingDecided` | contracts/src/Patron.sol:520-570 | the same for `acceptListing`, the finder's payment last |
| `Refusals.PlaceDecided` | contracts/src/ReturnAuctionModule.sol:433-457 | the same for a bid, whose increment is at least one wei and a hundredth of the standing bid, rounded down |
| `Refusals.SettleDecided` | contracts/src/ReturnAuctionModule.sol:494-499 | only a missing, settled or still open auction refuses settlement |
| `Refusals.RecordDecided` | contracts/src/PermanentCollection.sol:357-440 | the same for `recordAcquisition`, sole-carrier guard included |
| `Refusals.MarkDecided` | contracts/src/PermanentCollection.sol:487-501 | the same for `markCustody` |
| `ProtocolTheorems.ReserveCountsAttempts` | README.md:33 | the reserve counts exactly the earlier acquisitions aimed at the same trait |
| `ProtocolTheorems.PlaceBidIff` | contracts/src/ReturnAuctionModule.sol:433-491 | a bid lands if and only if the auction is open and the amount meets reserve and increment |
| `ProtocolTheorems.BidLeads` | contracts/src/ReturnAuctionModule.sol:433-491 | a landed bid leads and changes nothing else; with 15 minutes or more to go the end stays, any later bid leaves exactly one hour; the outbid bidder is paid at once or owed the whole bid |
| `ProtocolTheorems.WithdrawIff` | contracts/src/ReturnAuctionModule.sol:723-730 | from any reachable state a withdrawal lands if and only if something is owed, and pays it in full: the module's balance never falls short |
| `ProtocolTheorems.SoldFreesTrait` | README.md:33-35 | a sold auction returns the Punk, frees its trait and keeps the attempt counted, so the next reserve is dearer |
| `ProtocolTheorems.SoldPays` | README.md:35 | the winning bid goes 65% of cost to the adapter and a tenth of cost to the pool, rounded down, the rest of cost to the burner, a twentieth of the premium, rounded down, to a referrer who can take it, the rest of the premium to the pool, and nothing else moves |
| `ProtocolTheorems.UnsoldPays` | contracts/src/ReturnAuctionModule.sol:494-580 | an unsold settlement forwards the whole pool to the burner and moves nothing else; if the forward fails nothing moves |
| `ProtocolTheorems.StepConserves` | contracts/src/ReturnAuctionModule.sol:494-718 | no transaction creates or destroys wei |
| `ProtocolTheorems.RunConserves` | contracts/src/ReturnAuctionModule.sol:494-718 | over any run all wei brought in is still held, owed or was paid out |
| `ProtocolTheorems.RunLater` | README.md:64-72 | over any run collected traits, vaulted Punks, Proofs and settled history are never undone |
| `ProtocolTheorems.WillingOwnerCollects` | docs/MISSION_PROPERTIES.md:101 | in any reachable state an owner listing within the bid is accepted and, unrescued, makes the canonical trait permanent and receives the Proof |
| `CollectionGame.StrandsIff` | docs/MISSION_PROPERTIES.md:100 | a legal move strands an open trait if and only if it vaults the last carrier outside the vault for another trait |
| `GameRuns.RunIsPlay` | contracts/src/PermanentCollection.sol:357-535 | whatever is paid, bid, listed or waited for, the acquisitions and settlements of a run are legal moves and the records show the position they lead to |
| `GameRuns.PlayIsRun` | contracts/src/PermanentCollection.sol:357-535 | without live auctions and with ordinary owners, every legal play is the play of some run |
| `Stranding.StrandableIff` | docs/MISSION_PROPERTIES.md:98 | some run vaults every carrier of a trait without collecting it if and only if some play of the game does |
| `Stranding.CollectableIff` | docs/MISSION_PROPERTIES.md:99 | some run collects a set of traits, one or all 111, if and only if some play of the game does |
| `Stranding.StrandedForever` | docs/MISSION_PROPERTIES.md:98 | once every carrier of an uncollected trait is vaulted, no run ever collects it |
| `Stranding.StepStrandsIff` | docs/MISSION_PROPERTIES.md:100 | of all transactions from any reachable state, exactly the unsold settlement of the last carrier left, for another trait, strands an open trait |
| `Stranding.RunStrandsIff` | docs/MISSION_PROPERTIES.md:100 | a run ends with the trait stranded if and only if it contains such a settlement |
| `Stranding.LeadingIff` | contracts/src/PermanentCollection.sol:597-632 | every acquirable carrier is recorded for an open trait in every storage if and only if no carrier has a trait before it |
| `Stranding.LeadingNeverStranded` | docs/MISSION_PROPERTIES.md:98-100 | along any run from deployment such a trait is collected, in flight, or the canonical target of an acquirable carrier |
| `Stranding.SoleCarrierNeverStranded` | docs/MISSION_PROPERTIES.md:112-121 | along any run trait 23 is collected, in flight with its carrier, or its carrier can still be acquired for it |
| `StrandingExample.StrandingRun` | docs/MISSION_PROPERTIES.md:98-100 | on a dataset as the contract describes it, a run from deployment after which no continuation collects trait 1 |
| `Chain.Contracts.constructor` | contracts/src/PermanentCollection.sol:224-289 | fresh storage is the empty initial state |
| `Chain.Contracts.CanonicalTargetOf` | contracts/src/PermanentCollection.sol:611-632 | the loop with the 65535 sentinel computes the canonical target |
| `Chain.Contracts.ValidateTarget` | contracts/src/Patron.sol:375-407 | the checks find the specified problem, in the specified order |
| `Chain.Contracts.Record` | contracts/src/PermanentCollection.sol:357-471 | recording in place does what the specification says or reverts unchanged |
| `Chain.Contracts.Mark` | contracts/src/PermanentCollection.sol:487-535 | marking custody in place does what the specification says or reverts unchanged |
| `Chain.Contracts.AcceptBid` | contracts/src/Patron.sol:434-516 | accepting in place does what the specification says or reverts unchanged |
| `Chain.Contracts.PlaceBid` | contracts/src/ReturnAuctionModule.sol:433-491 | bidding in place does what the specification says or reverts unchanged |
| `Chain.Contracts.Settle` | contracts/src/ReturnAuctionModule.sol:494-718 | settling in place does what the specification says or reverts unchanged |
| `LiveBid.Adapter.Sweep` | contracts/src/LiveBidAdapter.sol:412-533 | sweeping in place does what the specification says or reverts with the block to wait for, unchanged |
| `LiveBid.Adapter.StreamForward` | contracts/src/LiveBidAdapter.sol:560-601 | streaming in place does what the specification says and never fails |
| `LiveBid.SyncIs` | contracts/src/LiveBidAdapter.sol:641-686 | a sync looks at the newest acquisition only: an accepted bid sets the threshold to three quarters of its price, clamped, any other leaves it |
| `LiveBid.SweepIs` | contracts/src/LiveBidAdapter.sol:412-533 | what a landed sweep moves: the whole buffer short of the threshold, the gap when it reaches it, the buffer up to the cap above it, and half a percent, capped, for a keeper who can be paid |
| `LiveBid.StreamIs` | contracts/src/LiveBidAdapter.sol:560-601 | what a stream moves: with a hundredth of an ether buffered, up to the threshold all that fits, above it past the cooldown the buffer up to the cap; otherwise nothing, and never a reward |
| `LiveBid.SweepOkIff` | docs/MISSION_PROPERTIES.md:159 | a sweep is refused if and only if there is something to move, the bid is at the threshold and the cooldown is not over |
| `LiveBid.SweepMoves` | docs/MISSION_PROPERTIES.md:133 | a sweep that lands with a buffer raises the bid |
| `LiveBid.FastLandsAtThreshold` | contracts/src/LiveBidAdapter.sol:442-481 | below the threshold a sweep never overshoots it, and lands on it exactly when bid and buffer reach it |
| `LiveBidRuns.RateCap` | contracts/src/LiveBidAdapter.sol:41-47 | over any run of sweeps, streams, inflows, acquisitions and overrides, at most maxSweepWei per minBlocksBetweenSweeps blocks goes to the bid at or above the threshold |
| `LiveBidRuns.BidPaced` | contracts/src/LiveBidAdapter.sol:41-47 | over any run the bid outgrows the thresholds in force by no more than that rate |
| `LiveBidRuns.BidPacedAlways` | contracts/src/LiveBidAdapter.sol:146-155 | whatever is accepted or set, 100 ether bounds the thresholds in that statement |
| `LiveBidRuns.FuelConserved` | docs/MISSION_PROPERTIES.md:133 | over any run all ETH that came in is buffered, in the bid, spent by it, or a keeper's; keepers get at most one wei for 199 sent to the bid |
| `LiveBidRuns.DrainReachesBid` | docs/MISSION_PROPERTIES.md:133 | from any state, one sweep per cooldown empties any buffer in buffer / maxSweepWei + 2 calls, and at least 199 parts in 200 reach the bid: the throttle paces, it never stops |
| `SeedSteps.AttemptIff` | scripts/seed-acquisitions.ts:341-386 | an attempt opens an auction if and only if the network lets it through, an ordinary account owns the Punk, the bid covers the listing and the reserve fits |
| `SeedSteps.AttemptOutcomes` | scripts/seed-acquisitions.ts:341-386 | which failed read stops the script, which Punk is passed over, and that a failed attempt has at most listed it |
| `SeedSteps.AttemptKeeps` | scripts/seed-acquisitions.ts:341-386 | one iteration keeps the phase: exactly the listed auctions opened and paid for, nothing collected |
| `SeedSteps.NoTargetStays` | scripts/seed-acquisitions.ts:347-356 | a Punk without an eligible trait stays without one as further auctions open |
| `SeedSteps.AttemptExhausts` | scripts/seed-acquisitions.ts:388-390 | with a covering bid, every Punk already passed is recorded, without a target, unowned or lost |
| `SeedSteps.RescueLands` | scripts/seed-acquisitions.ts:402-411 | a bid of the reserve on a fresh auction always lands and changes only that auction |
| `SettleOrder.UnsoldFirstIsBest` | scripts/seed-acquisitions.ts:415-419 | no settle order leaves more in the pool than the total of the rescued shares, and exactly the orders that settle every unsold auction first leave that much |
| `SettleOrder.SettleAllEffect` | scripts/seed-acquisitions.ts:424-433 | in any order each unsold auction collects one trait, sold ones none, and the pool is what the order makes of it |
| `SettleOrder.SettleOrderIsBest` | scripts/seed-acquisitions.ts:415-419 | over permutations of the same settlements on the protocol, the pool is highest exactly for the unsold-first orders |
| `SeedFunding.MintReachesIff` | scripts/seed-acquisitions.ts:230-241 | the mint gives the bid what is needed if and only if it is sent and mined and the bid is below a threshold that is no less, or past the cooldown and within the sweep cap |
| `SeedFunding.MintOverwrites` | scripts/seed-acquisitions.ts:233-241 | a mint makes the buffer half an ether more than is needed and then sweeps it once |
| `SeedFunding.BatchesRun` | scripts/seed-acquisitions.ts:269-283 | the trading loop runs its batches up to the first after which the bid is there, that fails, or that is the twelfth |
| `SeedFunding.TradesConserve` | scripts/seed-acquisitions.ts:136-156 | every wei the trades bring in is in the buffer, in the bid or with the keepers |
| `SeedFunding.FreshIsFunded` | scripts/seed-acquisitions.ts:230-232 | before the first acquisition, whatever the trades did, the mint suffices for up to 2980 listings |
| `SeedFunding.RerunNeedsDrip` | scripts/seed-acquisitions.ts:243-256 | once the latest acquisition is the script's own, a mint suffices if and only if the bid is at three quarters of a listing, past the cooldown and within the cap |
| `SeedFunding.RerunFallsShort` | scripts/seed-acquisitions.ts:243-256 | with an empty bid after one row of the script's own, the mint goes through and leaves three quarters of one listing, whatever the cap, cooldown and block |
| `SeedFunding.FundBid` | scripts/seed-acquisitions.ts:243-286 | trading batch after batch, then minting, is the specified funding on the adapter; nothing but the bid, the buffer and keepers' rewards moves |
| `SeedAcquisitions.TryOpen` | scripts/seed-acquisitions.ts:341-386 | the loop body on the contracts is the specified attempt |
| `SeedAcquisitions.OpenAuctions` | scripts/seed-acquisitions.ts:336-390 | distinct rising Punks, one listing each from the bid, none passed over that could be opened; falls short only when nothing more can be, and stops early only on a read that throws |
| `SeedAcquisitions.BidCovers` | scripts/seed-acquisitions.ts:330-334 | the funded bid covers the listing before every attempt, strays included |
| `SeedAcquisitions.RescueBids` | scripts/seed-acquisitions.ts:392-413 | every auction to be rescued, up to the call that throws, ends led by the bidder at its reserve; no other auction changes |
| `SeedAcquisitions.SettleAuctions` | scripts/seed-acquisitions.ts:424-433 | the loop settles them in order, up to the call that throws |
| `SeedAcquisitions.ScriptPool` | scripts/seed-acquisitions.ts:415-426 | the script's order leaves the rescued shares alone in the pool once anything is vaulted |
| `SeedAcquisitions.ScriptOrderIsBest` | scripts/seed-acquisitions.ts:415-419 | no order of the same settlements leaves the pool higher than the script's |
| `SeedAcquisitions.OpenDemo` | scripts/seed-acquisitions.ts:449-459 | the demo auction ends due and unsold, earlier auctions untouched, or nothing was left to open |
| `SeedAcquisitions.RunBatch` | scripts/seed-acquisitions.ts:336-435 | wherever the network stops a batch the protocol is consistent, at most the needed traits were collected and none before the settlements; a whole batch collects exactly them |
| `SeedAcquisitions.Seed` | scripts/seed-acquisitions.ts:299-481 | wherever a run ends the protocol is consistent and at most the missing traits were collected; a finished run collects exactly up to the target, rescued Punks add none, the pool holds the rescued shares, and the final count check never fires; a funded run opens too few only when nothing is left; a run with nothing to do changes nothing |
| `PunkTargets.GroupByTrait` | app/lib/trait-options.ts:43-75 | a Punk is grouped under a trait if and only if some entry offers it |
| `PunkTargets.BuildTraitOptions` | app/lib/trait-options.ts:43-90 | one option per offered trait, rarest first with ties by index, each listing exactly its Punks in ascending order, with its category and whether it has a single carrier |
| `PunkTargets.DerivePunkTargets` | app/components/AcceptBidFlow.tsx:2237-2254 | exactly the listed Punks, once each, ascending, each with the first option that lists it |
| `PunkTargets.RarestListed` | app/components/AcceptBidFlow.tsx:2229-2254 | with carrier counts not decreasing, each target is a rarest trait of its Punk |
| `PunkTargets.PageMatchesContract` | app/components/AcceptBidFlow.tsx:2229-2236 | the page's target is the contract's for an owned Punk if and only if it is not reserved for a trait in flight elsewhere with another one eligible |
| `PunkTargets.AcquirableNeverReserved` | contracts/src/PermanentCollection.sol:588-595 | in reachable storage no acquirable Punk is so reserved |
| `GreedyPairs.FirstFree` | scripts/seed-title-threshold.ts:277-286 | the inner loop finds the lowest trait of the Punk that is not taken, or none exactly when all are |
| `GreedyPairs.TakenTraits` | scripts/seed-title-threshold.ts:266-271 | taken at the start are exactly the collected and pending traits |
| `GreedyPairs.PickPairs` | scripts/seed-title-threshold.ts:266-292 | the pairs are a valid pairing with rising Punks, each the greedy choice of the lowest free trait, and fewer than needed only when no pair can be added |
| `GreedyPairs.AtLeastHalf` | scripts/seed-title-threshold.ts:266-292 | when short, every valid pairing of the scanned Punks has at most twice as many pairs |
| `GreedyPairs.HalfIsAttained` | scripts/seed-title-threshold.ts:277-286 | the factor two is reached by two Punks and two traits |
| `GreedyPairs.ZeroPriceIsRefused` | scripts/seed-title-threshold.ts:319-337 | the script's zero-price listing is refused in every state, whatever the target |
| `CanonicalPicks.PickOrderPermutes` | scripts/pick-canonical-punks.ts:105-110 | the pick order visits each of the 111 traits once |
| `CanonicalPicks.BestIsLeast` | scripts/pick-canonical-punks.ts:119-137 | the scan finds the least admissible carrier by population count, then id, and none exactly when none is admissible |
| `CanonicalPicks.PickAll` | scripts/pick-canonical-punks.ts:112-146 | the loop computes the specified picks or the specified failure |
| `CanonicalPicks.PicksAreLeast` | scripts/pick-canonical-punks.ts:112-146 | on success every trait has its least admissible carrier; failure names a trait with none |
| `CanonicalPicks.TypePicks` | scripts/pick-canonical-punks.ts:112-146 | a type's exemplar has at least four traits and stands for no head variant or earlier type, and is the least such carrier by count, then id |
| `CanonicalPicks.OtherPicks` | scripts/pick-canonical-punks.ts:112-146 | any other trait's exemplar is the least of all its carriers |
| `CanonicalPicks.TypesStandApart` | scripts/pick-canonical-punks.ts:92-98 | a type's exemplar differs from every other head tile's |
| `CanonicalPicks.HeadTierDistinct` | scripts/pick-canonical-punks.ts:85-98 | with at most one head-variant bit per mask all 16 head tiles differ |
| `CanonicalBlob.EmitLines` | scripts/pick-canonical-punks.ts:207-217 | the emitted lines join to four digits per id, all but the last 64 digits long |
| `CanonicalBlob.Decode` | app/lib/canonical-punks.ts:16-22 | the loop reads one byte per two digits |
| `CanonicalBlob.OrIsSum` | app/lib/canonical-punks.ts:32 | shifting and or-ing in a low part is adding it |
| `CanonicalBlob.OrIsBitwise` | app/lib/canonical-punks.ts:32 | or sets exactly the bits set on either side |
| `CanonicalBlob.BlobRoundTrip` | app/lib/canonical-punks.ts:16-33 | every id is read back at its trait if and only if all ids are below 65536; other traits are refused |
| `ReceiptWatch.ApplyKeeps` | app/components/BidComposer.tsx:144-176 | every event keeps: at most one live watcher, watching what is awaited |
| `ReceiptWatch.PhasesAre` | app/components/BidComposer.tsx:112-176 | how each event moves the phase: submit, hash, refusal and receipt, and nothing else; only a mined receipt calls back |
| `ReceiptWatch.OneWatcherAfterCommit` | app/components/BidComposer.tsx:144-176 | after any run and a commit exactly one live watcher exists while a hash is awaited with a client, else none |
| `ReceiptWatch.ReceiptEndsTheWait` | app/components/BidComposer.tsx:144-176 | its receipt always ends the wait, with one success call or a failure |
| `ReceiptWatch.SuccessAtMostOnce` | app/components/BidComposer.tsx:144-176 | over any run the success callback fires at most once per transaction |
| `ReceiptWatch.OldDesignNeverEnds` | app/components/BidComposer.tsx:20-28 | with the whole phase among the dependencies, a receipt after the second commit is lost for good |
| `AcceptRace.ApplyKeeps` | app/components/AcceptBidFlow.tsx:473-491 | every event keeps the flags true to the chain and never unsets `done` |
| `AcceptOutcomes.DoneIsTrue` | app/components/AcceptBidFlow.tsx:149-157 | over any run `done` means a Punk chosen in the session is recorded, stays set, and is implied by `finalizedExternally` |
| `AcceptOutcomes.SelectionClears` | app/components/AcceptBidFlow.tsx:354-412 | a new selection, or none, clears both transactions and the external flag and leaves what is done |
| `AcceptOutcomes.WalletIs` | app/components/AcceptBidFlow.tsx:609-639 | a signature starts the wait, a refusal rejects; any other error of an accept asks about the selection it was submitted with |
| `AcceptOutcomes.OwnSuccess` | app/components/AcceptBidFlow.tsx:727-764 | a receipt of a transaction that went through succeeds, is done, and is no external success |
| `AcceptOutcomes.AnswerIs` | app/components/AcceptBidFlow.tsx:473-491 | a positive answer finishes the flow as external; a negative one after a wallet error rejects the transaction |
| `AcceptOutcomes.RaceIsNotFailure` | app/components/AcceptBidFlow.tsx:727-764 | a revert while the shown Punk is already recorded becomes the external success once its read answers, whatever happens between |
| `AcceptOutcomes.RevertFailsIff` | app/components/AcceptBidFlow.tsx:846-903 | a revert with no selection shown fails at once; else, whatever happens between, the answer to its follow-up read shows a failure if and only if the read failed or was served while the shown Punk was not recorded, and the watcher was not cancelled; it shows the external success if and only if it was served later |
| `AcceptOutcomes.OtherSelectionFails` | app/components/AcceptBidFlow.tsx:609-639 | a run in which a race lost to a stranger is still shown as a failure |
| `AcceptOutcomes.OwnAcceptCalledExternal` | app/components/AcceptBidFlow.tsx:766-806 | a run in which the session's own acceptance is shown as external |
| `AcceptOutcomes.ExternalRightIff` | app/components/AcceptBidFlow.tsx:153-157 | over any run every answer that sets the external flag is about a stranger's acceptance if and only if no answer gets through from a read served after the session's own acceptance of its Punk was mined |
| `AcceptOutcomes.ExternalIsStranger` | app/components/AcceptBidFlow.tsx:153-157 | in such a run, whatever goes through, external means a stranger recorded a chosen Punk |
| `AcceptOutcomes.LateAnswerMisleads` | app/components/AcceptBidFlow.tsx:766-806 | each answer of the other kind, after any events, sets the flag for the session's own Punk |
| `AcceptWatchers.OneWatcherPerKind` | app/components/AcceptBidFlow.tsx:727-764 | after any run and a commit each of accept and batch has at most one live watcher, on its confirming transaction; while its client is there a confirming status without one has a follow-up read open or is done, and without a client there is none |
| `BidChips.PrintRoundTrip` | app/lib/format.ts:9-23 | an amount survives printing and parsing if and only if it has at most three decimals |
| `BidChips.CeilIsLeast` | app/lib/format.ts:61-72 | the displayed minimum is the least three-decimal amount at or above the floor |
| `BidChips.ChipsWork` | app/components/BidComposer.tsx:188-198 | for every floor each chip is at or above it, chips do not decrease, and each prints to text that parses to the chip and can be submitted |
| `BidChips.ChipsAre` | app/components/BidComposer.tsx:188-198 | the first chip is the displayed minimum or a hundredth of an ether, the others the least three-decimal amounts at or above 105, 110 and 125 hundredths of it |
| `BidChips.ValidIff` | app/components/BidComposer.tsx:105-118 | an amount can be submitted if and only if it parses, is positive and meets the floor |
| `BidChips.PrintedExamples` | app/lib/format.ts:6-23 | the documented amounts print as documented |
| `Texts.JoinSplit` | scripts/generate-docs.ts:206 | joining the split lines restores the text |
| `Texts.SplitJoin` | scripts/generate-docs.ts:206 | splitting joined lines restores the lines |
| `Prose.ParseSegments` | scripts/generate-docs.ts:205-227 | the segmentation loop computes the specified segments or the first error |
| `Prose.SegmentsLossless` | scripts/generate-docs.ts:205-227 | every line is kept in its place, and headings split exactly outside fences |
| `ProseFacts.HeadingIs` | scripts/generate-docs.ts:218-221 | a heading is one or two marks, a blank and some text without line breaks, trimmed |
| `ProseFacts.FenceParity` | scripts/generate-docs.ts:217 | a text is inside a fence after an odd number of lines that start with three backticks |
| `ProseFacts.StrayRefused` | scripts/generate-docs.ts:224-226 | segmentation fails if and only if the first line with anything on it is no heading, and names it |
| `ProseFacts.SegsRefused` | scripts/generate-docs.ts:233-252 | the second loop fails if and only if a section is unknown or a block heading unreadable, and names the first |
| `ProseFacts.SegsRead` | scripts/generate-docs.ts:233-252 | one block per block segment, in order, with what its heading and text say |
| `ProseFacts.ParsesIff` | scripts/generate-docs.ts:203-256 | when a file parses: it falls into segments, all known and readable, and the last summary has a text |
| `Prose.Parse` | scripts/generate-docs.ts:203-256 | the parser's two loops compute the specified file or error |
| `Prose.ParsedNumbered` | scripts/generate-docs.ts:231-255 | whatever prose parses, its blocks are numbered in the order of the text |
| `ProsePrinter.HeadingReads` | scripts/generate-docs.ts:241-252 | a printed block heading reads back as its kind and key |
| `ProsePrinter.BlockTextReads` | scripts/generate-docs.ts:258-262 | a printed access line comes off again, leaving the body |
| `ProsePrinter.RoundTrip` | scripts/generate-docs.ts:203-262 | printing a well-formed prose file and parsing it returns the file |
| `ProsePrinter.AccessExactIff` | scripts/generate-docs.ts:258-262 | on any text starting with `access:` the rest of that line is taken and everything after it left if and only if something other than white space follows the colon on it |
| `ProsePrinter.AccessReadsBackIff` | scripts/generate-docs.ts:258-262 | a printed block reads back if and only if its access line says something, or it has none and its body does not start like one |
| `ProsePrinter.BlankAccessSwallows` | scripts/generate-docs.ts:258-262 | any blank access line takes the first line with anything on it instead |
| `ProsePrinter.EmptyAccessSwallows` | scripts/generate-docs.ts:258-262 | with nothing between, that line is the body's first and leaves the body |
| `ContractPage.IndexBlocks` | scripts/generate-docs.ts:335-340 | the loop builds the table of blocks, and refuses a repeated key exactly when there is one |
| `ContractPage.TableHoldsAll` | scripts/generate-docs.ts:335-340 | without repeated keys the table holds exactly the blocks |
| `ContractPage.LookUp` | scripts/generate-docs.ts:345-364 | a lookup marks its block as used or adds the one problem it has, never both |
| `ContractPage.BuildPage` | scripts/generate-docs.ts:327-397 | the page is built if and only if no block repeats and prose and ABI fit; otherwise the error names a repeated block or lists exactly what does not fit |
| `ContractPage.FitsIff` | scripts/generate-docs.ts:345-397 | prose and ABI fit if and only if there is no true complaint |
| `ContractPage.ReceiveEmitted` | scripts/generate-docs.ts:381-387 | the page has the file's receive block exactly when the contract can receive |
| `Overloads.SignatureReads` | scripts/generate-docs.ts:171-173 | a heading of kind, name and parameter list, with white space anywhere in the list, parses to exactly the key the item is looked up by |
| `Overloads.TypesBack` | scripts/generate-docs.ts:171-173 | splitting a key's parameter list at its commas gives the item's types back |
| `Overloads.KeyReadsIff` | scripts/generate-docs.ts:247-250 | what follows the kind is read if and only if it is a name, or a name and a parameter list in parentheses |
| `Overloads.LookupIs` | scripts/generate-docs.ts:345-364 | a lookup finds the full signature, failing that the plain name unless two functions share it |
| `Overloads.SignaturesFound` | scripts/generate-docs.ts:241-252 | an ABI whose functions are all headed by full signatures finds a block for every one |
| `ContractPage.FunctionsOneToOne` | scripts/generate-docs.ts:345-364 | with distinct overload keys no two functions share a block |
| `ContractPage.BlocksAllUsed` | scripts/generate-docs.ts:381-394 | every block documents a function, event, error or receive of the ABI |
| `ContractPage.FunctionsMatchBlocks` | scripts/generate-docs.ts:345-394 | functions and function blocks correspond one to one |
| `ContractPage.WritesEmitted` | scripts/generate-docs.ts:366-378 | the emitted write functions are exactly the ABI's, each once, with an access line, strictly in prose order |
| `ContractPage.TextOrderEmitted` | scripts/generate-docs.ts:366-378 | from the prose text to the page: the emitted write functions are the ABI's, each once, in the order of the text |

## Left out

- Amounts wider than 128 bits, other than the reserve: the casts of costs and bids to `uint128` are not modelled as truncation.
- Sends between the protocol's own contracts (adapter, burner, pool) are assumed to succeed; a refund withdrawal whose send fails is a transaction that does not happen.
- Reentrancy locks, swap-window guards and caller-role checks: transactions are atomic and sent by the contract the source expects.
- Protocol contracts do not send listing or bidding transactions: sellers and bidders are ordinary accounts.
- The allowlist and its activation delay: whether a seller is active is a parameter.
- The 111-token tax and its burning, the fee hook and the buy-and-burn pacing. In `Protocol` ETH reaches the bid by `OpFund` and `OpMeter` in any amount; `LiveBid` says which amounts.
- The Title, its auction and its trait threshold; the NFT interfaces of Proofs.
- The escrow round trip on a returned Punk: its net effect, the transfer to the bidder, is kept.
- Time inside one phase of the seed script: no seconds pass between its transactions, only in its explicit waits.
- LiveBid: the admin setters of the cap and the cooldown, the reentrancy and swap-window guards, and ETH forced into the hub outside `receive`.
- SeedAcquisitions: the very first and the last reads succeed, and the side-pool trades move nothing modelled but the adapter and the bid.
- AcceptRace: preflight simulation, listing, cancel and claim transactions, and the polling timers; a poll may be sent at any time.
- `decodeEligibility`, error classification, wallets, RPC, multicall, files and child processes; chunked fetching and the emitted source text of the snapshot scripts.
- The frontmatter block, address substitution, markdown assembly, `firstSentence`, `anchor` and the alphabetical order of read functions, events and errors in the documentation compiler.
- BidChips: amounts typed with more than 18 decimals, which viem rounds, and negative amounts.
- The calculator of app/components/BidCalculator.tsx: plain formulas over floating-point numbers.
- The shipped masks: the theorems hold for every sealed dataset, and which plays the masks of app/lib/punkMasks.ts allow is not part of this model. Going by those masks, the traits that lead on every carrier are bits 0, 1, 16, 22, 23 and 26.
- seed-title-threshold beyond its pair picker: its listings are refused before anything else can happen.
