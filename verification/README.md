# A verified model of nmilat's protocol cores

Dafny models of the parts of nmilat that hold its hardest promises, with proofs of those
promises over every input, every run or every reachable state. `dafny verify dfyconfig.toml`
checks the whole project.

Where the Go code updates things step by step, the model is a method or a class proved equal to
a specification function (`Reconcile` to `Answer`, `Resolve` to `Current`, `Use` to `Used`, ...);
the theorems are about those functions. What those functions themselves decide is stated apart from
their definitions, with the literal constants, bytes, tags and states (`Codec.WireBytes`,
`PocketResolve.CurrentMeans`, `PocketWrites.AppliedExactly`, `PocketRoundTrip.AcceptedEvent`,
`Replay.RefusedExactly`, `Custody.SweepExactly`, ...).

## What is modelled

- **NIP-77 set reconciliation** (`Words`, `Varints`, `Items`, `Fingerprint`, `Codec`, `Split`,
  `Frame`, `Reconcile`, `IdDiff`, `FrameBound`, `Telling`, `Safety`, `Answers`, `Session`,
  `Convergence`, `Progress`, `Occupancy`, `RoundBound`, `Wire`, `Overrun`). Items and bounds are ordered by an integer rank; a
  message is truthful when each range describes the sender's items up to its bound. Safety, exact
  results and convergence in a bounded number of rounds hold for every frame limit; the frame bound and the
  size accounting are about the encoded bytes; `Wire` carries every run over to bytes.
- **NIP-CP Cash Pocket** (`Text`, `PocketEntry`, `PocketResolve`, `PocketWrites`, `PocketBalance`,
  `PocketConservation`, `PocketTwice`, `PocketRumor`, `PocketRoundTrip`): the log as a merge, a call's writes
  and the conservation of balances, settled by one device or two, and the entry printer and parser.
- **NIP-98 replay cache** (`Replay`), **NIP-44 padding** (`Padding`), **NIP-CO fees and bills**
  (`Fees`), **NIP-IC claims** and **NIP-AZ custody** (`Claims`, `Custody`), **NIP-CZ counting**
  (`Counting`).

## Hypotheses

- SHA-256 and event ids are uninterpreted functions passed as parameters. For NIP-77 no two different
  slices that are compared share a fingerprint (`Safety.CollisionFree`); elsewhere an id determines what it is the
  id of (`RumorsIdentify`, `IdsIdentify`, `Identified`).
- NIP-77 items are sorted and distinct with timestamps below 2^64 - 1, an id determines its item,
  and a party holds fewer than 2^59 items (`Safety.Sound`).
- Clocks and the attestation source are parameters; the source answers the same question the same
  way. Go integers are unbounded integers with every wrap-around written out (`Wrap64`, `Signed64`).

## Where the code does less than one might expect

The lemmas named give the exact condition, both ways, or an input that shows the case.

- **A repeated Skip** (nip77/reconcile.go:106-119). A responder's uncut, empty list is committed before the
  closing branch looks at the frame; the branch then writes the pending Skip a second time, behind a
  larger bound (`Safety.Overran`). No difference is lost (`Safety.Overrun`). On the wire a bound one second
  below the last timestamp is written as the 0 of infinity, so such a reply to a list one second past the
  Skip is heard differently (`Wire.HeardAsSent`, `Overrun.GarbledReply`). It takes a foreign peer's message:
  in a run of this code a list before infinity is never empty (`Occupancy.RunOccupied`), so no reply is
  ever of this form (`Wire.NoReplyGarbled`, `Overrun.AskedIsForeign`).
- **Long prefixes** (nip77/reconcile.go:109-112). A closing Skip repeats the peer's own bound, so the frame limit holds
  for prefixes of at most 32 bytes and is passed by no more than a multiple of the excess otherwise
  (`FrameBound.FrameBound`, `FrameBound.WideOverruns`).
- **Revs run out** (nipCP/resolve.go:14, nipCP/balance.go:128). At 2^64 - 1 the next rev wraps to 0 and
  the write loses: `PocketResolve.NextVersionWins`, `PocketConservation.CloseTakesEffect`.
- **Stray identity fields** (nipCP/entry.go:189). `Validate` looks at the identity's type only for a call, so a
  call may carry a value that is not printed: `PocketRoundTrip.RoundTrip`, `StrayCallLost`.
- **One cache, several clocks and windows** (nip98/auth.go:72-77, 171-178, 234). An id is kept for the window it
  was accepted under, and times are taken before the lock, so lock holders' clocks may disagree. How much
  they may is exact: `Replay.SharedWindows`, `Replay.OneWindow`; under the default window not at all
  (`Replay.DefaultWindow`).
- **Long lives** (nipCZ/count.go:71). The life in seconds times a second wraps past 292 years:
  `Counting.LongEnoughExact`.

## Model

| member | source | states |
|---|---|---|
| `Varints.EncodeVarint` | nip77/negentropy.go:153-179 | the ten-byte buffer filled backwards and then marked holds the MSB-first base-128 digits of x, the specification Varint |
| `Varints.VarintRoundTrip` | nip77/encoding.go:156-184 | every uint64 is read back from its varint, whatever bytes follow |
| `Varints.VarintShortest` | nip77/negentropy.go:153-155 | no byte string that reads as x is shorter than the encoding of x |
| `Varints.VarintAtMostTen` | nip77/negentropy.go:161-162 | every uint64 fits the ten-byte buffer |
| `Varints.VarintBytes` | nip77/negentropy.go:153-179 | literal encodings: high digit first, the high bit on all but the last byte |
| `Items.CompareIsRank` | nip77/negentropy.go:32-50 | Compare is the sign of a difference of integer ranks, so a total order, and 0 only for equal items |
| `Items.BeforeIsRank` | nip77/reconcile.go:255-292 | ItemIsBeforeBound is a comparison of ranks: monotone in both arguments, everything before infinity |
| `Items.MinimalBound` | nip77/reconcile.go:194-204 | the byte loop computes MinBound |
| `Items.MinBoundSeparates` | nip77/reconcile.go:194-204 | prev lies before the minimal bound and curr does not |
| `Items.MinBoundShortest` | nip77/reconcile.go:194-204 | no bound that separates the two has a shorter prefix |
| `Items.LowerBound` | nip77/reconcile.go:158-164 | the binary search finds the first index at or after from whose item is not before the bound |
| `Items.FirstNotBeforeIsCut` | nip77/reconcile.go:158-164 | cutting on from an earlier cut lands at the larger of the two bounds: cuts depend on ranks only |
| `Fingerprint.AddMod256` | nip77/negentropy.go:134-151 | in place, the buffer becomes Plus of its old content and the id |
| `Fingerprint.PlusIsMod` | nip77/negentropy.go:134-151 | Plus is addition modulo 256^n of little-endian values (2^256 for 32 bytes) |
| `Fingerprint.IdSumConcat` | nip77/negentropy.go:110-119 | the pre-hash sum is additive over concatenated slices |
| `Fingerprint.IdSumPermuted` | nip77/negentropy.go:110-119 | the pre-hash sum does not depend on item order |
| `Fingerprint.PrintPermuted` | nip77/negentropy.go:110-132 | nor does the fingerprint |
| `Fingerprint.ComputeFingerprint` | nip77/negentropy.go:108-132 | the running in-place sum gives the first 16 bytes of the hash of 32 bytes followed by the count as a varint, those bytes being the ids' sum mod 2^256, little-endian |
| `Fingerprint.PrintIs` | nip77/negentropy.go:121-132 | that determines the fingerprint: Print is one, and there is no other |
| `Codec.ToBytes` | nip77/encoding.go:10-62 | the loop with its running timestamp writes Encode, and fails exactly on an unknown mode or a fingerprint of the wrong length |
| `Codec.WriteRange` | nip77/encoding.go:17-59 | one range of it |
| `Codec.FromBytes` | nip77/encoding.go:64-154 | the loop over the reader computes Decode, refusing what it refuses |
| `Codec.Reader.DecodeVarint` | nip77/encoding.go:156-184 | consumes one varint: the value on a 64-bit word, high digits falling off, and the bytes it took |
| `Codec.Reader.NextRange` | nip77/encoding.go:84-150 | consumes one range, or fails as ReadRange does |
| `Codec.RangeRoundTrip` | nip77/encoding.go:17-59 | a range is read back as written, except that a bound one second below the last timestamp is heard as infinite |
| `Codec.WireRoundTrip` | nip77/encoding.go:10-154 | a well-formed message survives ToBytes and FromBytes if and only if no finite bound is exactly one second below the finite bound before it |
| `Codec.AscendingSurvives` | nip77/encoding.go:10-154 | so it does whenever finite timestamps never decrease |
| `Codec.WireBytes` | nip77/encoding.go:10-62 | the literal bytes of a Skip, a fingerprint or an id list up to infinity: 0x61, 0, 0, the mode, the payload |
| `Codec.WireOffsets` | nip77/encoding.go:22-40 | the literal bytes of two finite bounds: a difference plus one each, prefix length, prefix |
| `Codec.DecodedIsWhole` | nip77/encoding.go:64-154 | whatever is read has version 0x61 and ranges of the three modes with whole payloads, and can be written again |
| `Codec.UnknownModeRefused` | nip77/encoding.go:112-148 | a mode byte above 2 is refused whatever follows |
| `Codec.EncodeIdList` | nip77/reconcile.go:294-302 | the payload is the count and the ids in order |
| `Codec.DecodeIdList` | nip77/reconcile.go:304-327 | reads ListedIds, or fails on a short payload |
| `Codec.IdListRoundTrip` | nip77/reconcile.go:294-327 | an id list is read back as the ids it was made of |
| `Split.SplitRange` | nip77/reconcile.go:166-192 | the bucket loop gives SplitSpec: one id list below 32 items, else 16 fingerprints |
| `Split.NextBucket` | nip77/reconcile.go:178-190 | one turn of that loop gives bucket i |
| `Split.OffsetSteps` | nip77/reconcile.go:175-184 | bucket sizes sum to the whole, differ by at most one, and only the last bucket ends at the end |
| `Split.SplitAgreement` | nip77/reconcile.go:160-204 | bounds strictly ascend; re-cutting the same items at them by lowerBound gives exactly the fingerprinted slices |
| `Frame.RangeLenIsEncoded` | nip77/reconcile.go:238-253 | rangeLen is the length of what the encoder writes, varint widths and timestamp deltas included |
| `Frame.EncodedLenIsEncode` | nip77/encoding.go:10-62 | the size accounted for is the length of ToBytes |
| `Frame.Tracker.Measure` | nip77/reconcile.go:219-226 | measure is what the encoder would add after the ranges committed so far |
| `Frame.Tracker.Commit` | nip77/reconcile.go:228-236 | after any sequence of commits, size equals the encoded length of everything committed (Valid) |
| `FrameBound.FrameBound` | nip77/reconcile.go:87-119 | for every incoming message and every positive limit, the encoded answer has at most max(limit, 4096) bytes when the prefixes have at most 32, closing ranges and cut lists included; longer ones add at most three times the excess of the longest |
| `FrameBound.FrameFilled` | nip77/reconcile.go:87-119 | and frames are filled: an answer that closes early is at most 1226 bytes short of max(limit, 4096) |
| `FrameBound.StepFills` | nip77/reconcile.go:87-119 | on a list, fewer than 273: less than one more id, its header and the closing ranges |
| `FrameBound.WideOverruns` | nip77/reconcile.go:109-112 | a peer's prefix as long as the limit takes the answer over it, whatever the limit: the closing Skip repeats the bound |
| `FrameBound.InitiateBound` | nip77/negentropy.go:70-77 | the first message always fits 4096 bytes |
| `Reconcile.Negentropy.Reconcile` | nip77/reconcile.go:10-130 | the answer, the ids reported and the remembered set are those of Answer, the step function all theorems below are about; the error case keeps what was reported before it |
| `Reconcile.Negentropy.Consider` | nip77/reconcile.go:44-104 | the switch over a range's mode computes Reply and the tally, and keeps the frame tracker in step |
| `Reconcile.Negentropy.Conclude` | nip77/reconcile.go:106-126 | closing or committing computes Finish |
| `Reconcile.Negentropy.CutList` | nip77/reconcile.go:90-98 | the responder's list is cut at the first id that would not fit |
| `Reconcile.Negentropy.Report` | nip77/reconcile.go:132-146 | an id is new unless an initiator has reported it; only an initiator remembers |
| `Reconcile.Negentropy.ReportDiff` | nip77/reconcile.go:61-79 | the two loops add exactly Diff to the reports |
| `Reconcile.Negentropy.Initiate` | nip77/negentropy.go:70-77 | the first message is the split of everything up to infinity |
| `IdDiff.DiffClosed` | nip77/reconcile.go:57-79 | an initiator gains exactly (ours - theirs) to have and (theirs - ours) to need, less what was already reported, each once |
| `IdDiff.DiffUntracked` | nip77/reconcile.go:57-79 | a responder is told both differences of every list in full and remembers nothing |
| `Safety.MatchClears` | nip77/reconcile.go:48-50 | a range whose fingerprint equals ours holds no unreported difference |
| `Safety.ListClears` | nip77/reconcile.go:56-84 | after an initiator reads a list, every difference in the range is reported, and nothing else is |
| `Safety.ListTold` | nip77/reconcile.go:87-103 | a responder's list, cut or whole, describes its items up to its own bound |
| `Safety.Overrun` | nip77/reconcile.go:106-119 | when an uncut empty list overruns the frame the Skip is repeated behind a larger bound; the message still describes and covers everything |
| `Answers.StepDone` | nip77/reconcile.go:31-127 | every range of a truthful message is answered and keeps the loop invariant, for every limit |
| `Answers.AnswerSent` | nip77/reconcile.go:18-130 | a truthful message gets a truthful answer: never an error, every difference reported or inside a non-Skip range, only true differences reported |
| `Session.RunSafe` | nip77/reconcile.go:18-146 | for all limits, after every exchange: every id in only one set is reported or lies in a non-Skip range in flight; every have is in A only, every need in B only, each id once |
| `Session.IsComplete` | nip77/negentropy.go:79-88 | true exactly when every range is a Skip |
| `Session.CompleteExact` | nip77/negentropy.go:79-88 | when a run completes, the reports are exactly A minus B and B minus A, each id once, for all limits |
| `Session.HypothesesHold` | nip77/negentropy.go:52-68 | the hypotheses of the run theorems can be met with a difference to find |
| `Convergence.AnswerNarrowed` | nip77/reconcile.go:166-192 | an unlimited answer keeps bounds ascending and divides the answerer's items per fingerprint by 16; below 32 none is left |
| `Convergence.UnlimitedConverges` | nip77/reconcile.go:31-127 | with unlimited frames every run completes within Depth(size of B) rounds with the exact differences |
| `Convergence.DepthLogarithmic` | nip77/reconcile.go:166-192 | Depth grows by one per factor 16: at most n for 31 * 16^(n-1) items |
| `Progress.AnswerLeads` | nip77/reconcile.go:31-127 | for every limit, an answer's first non-Skip range lies beyond the first one asked about, or starts where it does and is the whole of it or a part with items in it; still fingerprinted, with at most a sixteenth of the answerer's items |
| `Occupancy.RunOccupied` | nip77/reconcile.go:48-103 | in every run, for every limit: a fingerprint before infinity holds items of its sender, an initiator's list before infinity items of the responder, and no reply repeats a Skip behind a finite bound |
| `RoundBound.RoundAhead` | nip77/reconcile.go:31-127 | for every limit, each round moves the first non-Skip range past at least one item of either party, or divides the responder's items in it by 16 |
| `RoundBound.EverySessionConverges` | nip77/reconcile.go:10-130 | for every pair of limits, after (size of A + size of B + 1) times (Depth(size of B) + 1) rounds every run is complete, with exactly the two differences reported |
| `Wire.HeardAsSent` | nip77/encoding.go:10-154 | a truthful message survives the wire if and only if it is not a repeated Skip one second below the list before it; an initiator's always does |
| `Wire.NoReplyGarbled` | nip77/reconcile.go:87-119 | no message a run reaches gets a reply of that form, for any limits |
| `Wire.WireSessionSame` | nip77/encoding.go:10-154 | runs over bytes equal runs over messages, for every pair of limits |
| `Wire.EveryWireSessionConverges` | nip77/encoding.go:10-154 | every run over bytes is complete after as many rounds, with exactly the two differences reported, for every pair of limits |
| `Wire.UnlimitedOverWire` | nip77/encoding.go:10-154 | with unlimited frames, already after Depth(size of B) rounds |
| `Overrun.GarbledReply` | nip77/reconcile.go:106-119 | a foreign peer's message to Reconcile whose reply, at the 4096 limit, is not heard as it was sent |
| `Overrun.AskedIsSent` | nip77/reconcile.go:106-119 | that message is truthful and leaves every difference open |
| `Overrun.AskedIsForeign` | nip77/reconcile.go:10-130 | but no run of this code against that responder reaches it, whatever the initiator holds and the limits are |
| `Text.ParseUintLoop` | nipCP/entry.go:428-439 | the digit loop accepts exactly canonical decimals up to 2^64 - 1 |
| `Text.DecimalRoundTrip` | nipCP/entry.go:428-450 | a printed number is read back if and only if it is in range (2^64 - 1, for times 2^62) |
| `Text.DecimalCanonical` | nipCP/entry.go:428-439 | the only string read as n is the one printed for n |
| `Text.LessIsLexical` | nipCP/resolve.go:65 | strings are ordered by their first difference, a prefix first |
| `Text.LowerHexMeans` | nipCP/entry.go:140-218 | a lower-case hex string: not empty, only those sixteen characters, of the length asked for or any even one |
| `PocketEntry.ValidRules` | nipCP/entry.go:138-218 | what Validate promises, by what it is about: numbers, states of bills and calls, identities, keys, secrets and their roles |
| `PocketEntry.BillIsValid` | nipCP/entry.go:138-218 | a bill that follows those rules validates |
| `PocketEntry.CallIsValid` | nipCP/entry.go:138-218 | and so does a call |
| `PocketResolve.OutranksTotal` | nipCP/resolve.go:57-66 | rev, final state, time, then rumor id order any two entries that are not copies of one rumor |
| `PocketResolve.OutranksTransitive` | nipCP/resolve.go:57-66 | and the order is transitive |
| `PocketResolve.Resolve` | nipCP/resolve.go:17-55 | the loops over maps give each w its Current entry, of the highest rev among the recognised ones and final where one of that rev is, and the sorted list of exactly the disputed w |
| `PocketResolve.CurrentMeans` | nipCP/resolve.go:17-66 | which entry that is: the highest rev; then a final state over the others; then the latest rumor; then the lowest rumor id |
| `PocketResolve.FinalNotRevived` | nipCP/resolve.go:57-66 | what one device marked ended at the winning rev is not shown live, pending or unknown because of another |
| `PocketResolve.CurrentBest` | nipCP/resolve.go:17-55 | Current is a recognised entry of w that no other outranks; none exactly when there is no recognised entry |
| `PocketResolve.ResolveIsASetFunction` | nipCP/resolve.go:17-55 | neither order nor copies change a winner (up to copies of one rumor) or a conflict |
| `PocketResolve.ResolveMerges` | nipCP/resolve.go:17-55 | resolving a concatenation is merging the two resolutions, winners and conflicts, from them alone |
| `PocketResolve.SameWinnerUpToWrap` | nipCP/resolve.go:17-55 | devices holding the same rumors, in any order, number of copies and wraps, resolve to the same entries up to the wrap, and to the same conflicts |
| `PocketResolve.NextVersion` | nipCP/resolve.go:5-15 | above every rev of w, recognised or not, by exactly one; 0 if and only if the revs have run out |
| `PocketResolve.NextVersionWins` | nipCP/resolve.go:5-15 | an entry written at NextVersion wins its w undisputed if and only if the revs of w are not exhausted or nothing recognised was there |
| `PocketWrites.MapStatus` | nipCP/balance.go:28-48 | definitive exactly when a final state is given, and exactly for an own spend, a tombstone or a proven NOT_FOUND; which state: spent, the tombstone's own reason or spent, reclaimed, and unknown for anything else |
| `PocketWrites.Close` | nipCP/pending.go:55-63 | only an open call closes, at the next rev, to an entry whose sources may be removed |
| `PocketWrites.ClosedIsValid` | nipCP/pending.go:55-63 | a valid call, closed, validates if and only if its rev is not the last and the time is positive |
| `PocketWrites.EndedIsValid` | nipCP/balance.go:126-141 | and so does a bill put in a final state |
| `PocketWrites.MakeBillEntry` | nipCP/pending.go:170-231 | the loops over secrets, identities and sources compute BillEntry |
| `PocketWrites.DroppedIsOthers` | nipCP/pending.go:170-196 | a bill is dropped if and only if the user holds neither its identity nor a secret of it that is not handed on, or is a remainder's even when handed on |
| `PocketWrites.KeptFacts` | nipCP/pending.go:197-231 | a kept bill's entry validates, carries the bill's token, expiry, identity and committed secret, is live exactly when a token came, and in place continues its source's chain, amount, mint and source at the next rev |
| `PocketWrites.RefusedMeans` | nipCP/pending.go:197-231 | a bill is refused if and only if the user may claim it and it is in place without a source of rev 1 or more, or its entry would not validate |
| `PocketWrites.ApplyResult` | nipCP/pending.go:102-168 | the loops give Applied; it writes if and only if the call is open, the error is not one that leaves it so and no bill of a result is refused, the first of the close batch being the call done, and otherwise gives the fault of exactly the failing condition |
| `PocketWrites.AppliedExactly` | nipCP/pending.go:102-168 | the same of the specification, at the check time given or else now; an error writes no bills, BAD_REQUEST only the closed call |
| `PocketWrites.KeepBills` | nipCP/pending.go:147-160 | the loop over bills gives KeptEntries, or fails on the first refused one, and the sources carried on in place |
| `PocketWrites.BurySources` | nipCP/pending.go:131-143 | for a tombstone the loop ends exactly the sources of the name given |
| `PocketWrites.SpendSources` | nipCP/pending.go:161-166 | for a result it spends exactly the sources not carried on |
| `PocketBalance.Balance` | nipCP/balance.go:50-64 | whatever order the map is walked in: per chain the sum of live amounts capped at 2^64 - 1, a chain listed exactly when something on it is live |
| `PocketBalance.PocketTotals` | nipCP/balance.go:50-64 | Resolve then Balance give the capped total of the log |
| `PocketBalance.TotalOfOne` | nipCP/balance.go:50-64 | a pocket of one entry holds its amount on its chain if and only if it is live |
| `PocketConservation.WriteIsCurrent` | nipCP/resolve.go:17-55 | a write above what is current is current once published, in any order and number of copies |
| `PocketConservation.UntouchedStays` | nipCP/resolve.go:17-55 | a w nothing was written for keeps its entry and its conflicts |
| `PocketConservation.AppliedParts` | nipCP/pending.go:117-168 | the writes and close batch name each w once, each above what is current |
| `PocketConservation.CallIsDone` | nipCP/pending.go:102-168 | after publishing them the call is done |
| `PocketConservation.SourceSettled` | nipCP/pending.go:102-168 | and each source is carried on by one write, or ended, at the next rev, or untouched where the outcome says so |
| `PocketConservation.OthersStay` | nipCP/pending.go:102-168 | nothing but the call, its sources and its bills changes |
| `PocketConservation.FailedChangesNothing` | nipCP/pending.go:117-168 | a settlement that fails leaves the call open, its sources unremovable and every total as it was |
| `PocketConservation.ClaimedAreWritten` | nipCP/pending.go:111-160 | of a result, exactly the bills the user may claim are written, one entry each |
| `PocketConservation.WrittenIsValid` | nipCP/pending.go:102-231 | everything a settlement of valid entries writes validates |
| `PocketConservation.Conservation` | nipCP/pending.go:117-231 | on every chain, new total + what the settled sources held = old total + what the kept bills hold, for every outcome |
| `PocketConservation.ResultConserves` | nipCP/pending.go:146-168 | for a result: total changes by live writes less live sources, and so do the balances below the cap |
| `PocketConservation.InterruptedIsSafe` | nipCP/pending.go:102-105 | part published, writes before the close: sources may be removed only once every kept bill is current |
| `PocketConservation.HypothesesHold` | nipCP/pending.go:117-168 | the hypotheses of the settlement theorems can be met, by a call that spends a live source |
| `PocketConservation.WriteDisputed` | nipCP/resolve.go:17-55 | a write is disputed if and only if it was sealed as more than one rumor |
| `PocketTwice.AppliedUnchecked` | nipCP/pending.go:102-231 | what two devices write for one answer differs in its check times only |
| `PocketTwice.TwiceConserves` | nipCP/pending.go:102-231 | with both devices' writes in the log, every chain's total moves as if one had settled the call |
| `PocketTwice.TwiceResolves` | nipCP/resolve.go:17-55 | each write is current but for its check time, and disputed if and only if it was sealed as more than one rumor |
| `PocketTwice.TwiceDone` | nipCP/pending.go:102-168 | and the call is done |
| `PocketConservation.CloseTakesEffect` | nipCP/pending.go:55-63 | closing a call takes effect if and only if its rev is below 2^64 - 1 |
| `PocketRoundTrip.PrintRumor` | nipCP/entry.go:220-280 | the appended tags are those of Printed, name by name in order; refused unless valid with a wrap key |
| `PocketRoundTrip.PrintedEvent` | nipCP/entry.go:220-280 | what is printed is an unsigned kind 9525 event of the user with no content, dated now, its id its hash |
| `PocketRoundTrip.FrontOnPaper` | nipCP/entry.go:229-280 | the literal tags: w, rev, cash if any, amount and chain |
| `PocketRoundTrip.BillOnPaper` | nipCP/entry.go:229-280 | then identity, state with its time, mint, expiry and source |
| `PocketRoundTrip.CallOnPaper` | nipCP/entry.go:229-280 | then request id, deadline, target and device, and the secrets in order with their roles |
| `PocketRoundTrip.PayoutOnPaper` | nipCP/entry.go:229-280 | then order key, notify and address |
| `PocketRoundTrip.BackOnPaper` | nipCP/entry.go:229-280 | then quote and receipt, and the wrap key last |
| `PocketRoundTrip.ParseRumor` | nipCP/entry.go:282-426 | the tag loop with its seen set computes Parsed; what it accepts is an unsigned kind 9525 event whose id is its hash or left out, and that hash is the rumor id given |
| `PocketRoundTrip.AcceptedEvent` | nipCP/entry.go:288-302 | the same of Parsed, with the time given; the id may be left out without changing the result |
| `PocketRoundTrip.ChangedRefused` | nipCP/entry.go:289-301 | an accepted event with another id, another kind or a signature is refused |
| `PocketRoundTrip.AcceptedSays` | nipCP/entry.go:343-401 | an accepted entry says what each of its tags says: reading any of them again, in whatever place, changes nothing |
| `PocketRoundTrip.TakeTag` | nipCP/entry.go:315-401 | one turn of that loop: a tag read, ignored or refused as ReadTag says |
| `PocketRoundTrip.RoundTrip` | nipCP/entry.go:220-450 | ParseRumor restores every field Rumor printed, secrets in order, if and only if times are at most 2^62 and no stray identity fields are set |
| `PocketRoundTrip.StrayCallLost` | nipCP/entry.go:189-190 | a valid call with stray identity fields prints and is not read back as itself, whatever the hash |
| `PocketRoundTrip.LateCallLost` | nipCP/entry.go:441-450 | nor is a valid call checked past 2^62 |
| `PocketRoundTrip.AcceptedIsValid` | nipCP/entry.go:402-425 | every recognised entry accepted validates and has a wrap key; an unrecognised one shows its raw state only |
| `PocketRoundTrip.AcceptedReprints` | nipCP/entry.go:220-450 | an accepted entry prints whenever an id can be computed, and reads back as itself if and only if it has no stray identity fields |
| `PocketRoundTrip.TwiceRefused` | nipCP/entry.go:303-313 | a single tag given twice is refused, wherever the two stand |
| `PocketRoundTrip.OrderDoesNotMatter` | nipCP/entry.go:315-401 | every reordering of the tags that keeps the secrets in their order reads the same |
| `PocketRoundTrip.UnknownIgnored` | nipCP/entry.go:316-342 | unknown and empty tags change nothing |
| `Replay.SeenIDs.constructor` | nip98/seen.go:28-35 | an empty cache, of the default capacity when given none |
| `Replay.SeenIDs.Sweep` | nip98/seen.go:63-70 | exactly the ids not expired at now remain, and the next sweep is set |
| `Replay.SeenIDs.Use` | nip98/seen.go:37-54 | verdict and new cache are those of Used, and the cache stays within its capacity |
| `Replay.VerifyRequest` | nip98/auth.go:166-237 | a stale or otherwise refused request leaves the cache alone; the rest goes through Use |
| `Replay.RefusedExactly` | nip98/auth.go:166-178 | refused before the cache if and only if invalid, dated from 2^62 on, or more than the window's whole seconds (60 by default) before or after the clock's second; the cache is then left alone |
| `Replay.AcceptedIsFresh` | nip98/auth.go:166-237 | what is accepted is valid, no further than the window and a second from the clock, and held until its date plus both |
| `Replay.SweptWhenDue` | nip98/seen.go:40-54 | ten seconds after the last sweep, a request that is no replay leaves only unexpired ids beside its own |
| `Replay.UseVerdicts` | nip98/seen.go:37-54 | replayed if and only if the id is unexpired; full if and only if it is not and max unexpired ids are held; accepted otherwise |
| `Replay.RunBounded` | nip98/seen.go:40-54 | over every run the cache holds at most max ids, and full means exactly max unexpired ones |
| `Replay.FreshIsHeld` | nip98/auth.go:166-178 | while an event is fresh under a tolerated window, even a clock d ahead has not reached the time its id may be forgotten |
| `Replay.HeldThrough` | nip98/seen.go:40-54 | an accepted id is held as long as no lock holder's clock reaches that time |
| `Replay.NoReplay` | nip98/auth.go:166-237 | over every run whose clocks, in lock order, are never more than d behind an earlier one, no event id is accepted twice under windows that tolerate d |
| `Replay.OneWindow` | nip98/auth.go:166-178 | under one window no run with clocks within d accepts an event twice if and only if d is at most the window's fraction of a second (and a second can be added to the window) |
| `Replay.DefaultWindow` | nip98/auth.go:166-170 | under the default window, if and only if clocks never go back in lock order |
| `Replay.SharedWindows` | nip98/auth.go:72-77 | for a cache shared by two windows and clocks within d: no event accepted under the first is accepted again under the second if and only if the first outlasts the whole seconds of the second by d and leaves room for one more second |
| `Replay.AcceptedTwice` | nip98/seen.go:40-54 | otherwise a run that accepts an event twice |
| `Padding.PaddedLenLeast` | nip44/encryption.go:288-306 | the padded length is at least l, a multiple of its unit and of 32, and less than one unit more than l |
| `Padding.UnitIs` | nip44/encryption.go:297-303 | the unit is 32 up to 256 and beyond it an eighth of the least power of two that holds l |
| `Padding.PaddedLenMonotone` | nip44/encryption.go:288-306 | monotone |
| `Padding.PaddedLenIdempotent` | nip44/encryption.go:288-306 | a padded length is not padded further |
| `Padding.Pad` | nip44/encryption.go:247-264 | the buffer holds the prefix, the plaintext and zeros |
| `Padding.PaddedBytes` | nip44/encryption.go:247-264 | literal frames on both sides of the prefix threshold, high bytes first |
| `Padding.UnpadPad` | nip44/encryption.go:247-286 | unpad undoes pad if and only if the length is 1 to 2^32 - 1, across both prefixes |
| `Padding.PadUnpad` | nip44/encryption.go:266-286 | what unpad accepts has the canonical prefix and length, and is what pad makes if and only if the padding is zero |
| `Fees.OrderFeeExact` | nipCO/fees.go:14-50 | on 64-bit words: bad request for a kind other than lightning and onchain or an onchain amount that is no multiple of 1000, too large if and only if the exact pay exceeds 2^64 - 1, and otherwise amount + base + floor(ppm * amount / 10^6), onchain rounded up to a multiple of 1000, with the fee the difference |
| `Fees.ExactPayIsLeast` | nipCO/fees.go:40-48 | the pay is the least that covers amount and fee and, on chain, is a multiple of 1000 |
| `Fees.ShareOnWords` | nipCO/fees.go:27-31 | Mul64 and Div64 give the floor of ppm * amount / 10^6, or show it does not fit |
| `Fees.MintSplit` | nipCO/fees.go:64-81 | bills of max and a non-zero rest, summing exactly to received less fee; none when the fee is not exceeded |
| `Fees.SplitIsOne` | nipCO/fees.go:64-81 | that split of a sum is unique |
| `Fees.MintOrder` | nipCO/fees.go:14-81 | an order's pay and fee mint bills that sum to the ordered amount |
| `Claims.Evaluate` | nipIC/evaluate.go:63-122 | the loops and the rewriting of states give Evaluated |
| `Claims.SpoofOthers` | nipIC/evaluate.go:115-120 | the last loop changes exactly the verified verdicts of other pubkeys |
| `Claims.Checked` | nipIC/evaluate.go:141-189 | a reference counts if and only if the event it names is fetched under that very id, is an attestation, and that vouches for the claim: a trusted author's other than the claimant, for its key, platform and pubkey, no more than 15 minutes ahead, not expired, current and not deleted, naming no other account |
| `Claims.VerifiedMeans` | nipIC/evaluate.go:16-25 | a claim about the key is Verified if and only if one of its own references counts and the newest attestation that counts for any claim names its pubkey, and Spoofed otherwise |
| `Claims.WinnerOverall` | nipIC/evaluate.go:63-110 | the winner is the newest attestation that counts for any claim |
| `Claims.NewestIsLatest` | nipIC/evaluate.go:133-139 | newest is latest, and of those dated alike the lowest id |
| `Claims.OneWinner` | nipIC/evaluate.go:115-121 | every Verified verdict carries the pubkey of the newest counting attestation |
| `Claims.SomeoneVerified` | nipIC/evaluate.go:104-121 | some claim is Verified if and only if some attestation counts |
| `Claims.EvaluatedFrom` | nipIC/evaluate.go:112-121 | the verdicts are exactly those on the claims about the key, or one Unverified |
| `Claims.ForeignIgnored` | nipIC/evaluate.go:72-88 | an event for another key changes nothing, wherever it stands |
| `Claims.MalformedIsSpoofed` | nipIC/evaluate.go:73-85 | one for the key that does not parse is Spoofed, in its signer's name |
| `Claims.AnyOrder` | nipIC/evaluate.go:69-122 | reordering or repeating claims, or a claim's references, changes no verdict |
| `Claims.SameVerdicts` | nipIC/evaluate.go:69-122 | so the set of verdicts given is the same |
| `Custody.FindResolved` | nipAZ/custody.go:54-59 | the search finds the first verified verdict on the platform |
| `Custody.ResolvedIsWinner` | nipAZ/custody.go:21-60 | a connection key resolves only to the pubkey the newest counting attestation names |
| `Custody.ResolveFaults` | nipAZ/custody.go:32-53 | which fault is given when, and that a pubkey resolves to itself |
| `Custody.ResolvesExactly` | nipAZ/custody.go:32-60 | a connection key resolves to p if and only if the lookup is well formed, a claim by p on the platform has a reference that counts, and the newest counting attestation names p |
| `Custody.ReleasedByCurrent` | nipAZ/custody.go:70-76 | by an attestation current for its author, who is trusted and is the named one when one is named |
| `Custody.ResolveAnyOrder` | nipAZ/custody.go:32-60 | the same for every order of claims |
| `Custody.SweepAnyOrder` | nipAZ/custody.go:77-95 | SweepAllowed does not depend on claim order, and allows at most one claimant |
| `Custody.SweepExactly` | nipAZ/custody.go:77-95 | who is allowed: for a pubkey that pubkey and with no author named; for a connection key if and only if key and named author are well formed and it is released to the claimant under that author |
| `Custody.SweepNeedsAuthor` | nipAZ/custody.go:70-76 | with an author named only a current attestation by that trusted author, naming the claimant, releases the value |
| `Counting.Count` | nipCZ/count.go:22-59 | the loops give the ids of Counted in order and their sum on a 64-bit word, the true sum when it fits |
| `Counting.ItemsAre` | nipCZ/count.go:28-32 | considered are exactly the zaps given that have a verdict, each with its own |
| `Counting.CountableMeans` | nipCZ/count.go:61-72 | what may count: vouched for, to a pubkey, about a note, a zap bill with both times, living long enough or without end, while the life fits |
| `Counting.NeverCounted` | nipCZ/count.go:42-45 | nothing that lacks one of these, or is deleted, counts |
| `Counting.SortedSame` | nipCZ/count.go:33-39 | sorting orders by time and id and keeps the items |
| `Counting.CountIsFair` | nipCZ/count.go:42-57 | a zap counts if and only if it is eligible and no earlier zap that counts shares its w (or, collapsed, its pair) |
| `Counting.KeptOutByEarlier` | nipCZ/count.go:42-57 | an eligible zap that does not count is kept out by one that does, dated earlier or alike with a lower id, of the same w or, collapsed, the same two parties |
| `Counting.NothingTwice` | nipCZ/count.go:40-55 | no w, and collapsed no pair, counts twice |
| `Counting.FairIsOne` | nipCZ/count.go:42-57 | the rule of CountIsFair determines what counts |
| `Counting.CountIsASetFunction` | nipCZ/count.go:22-59 | what counts depends on neither order nor copies |
| `Counting.PairEitherWay` | nipCZ/count.go:47-50 | pairs are unordered |
| `Counting.LongEnoughExact` | nipCZ/count.go:61-72 | the least-life test is exact for every least life if and only if the life in nanoseconds fits an int64 |
| `Counting.LongLifeRefused` | nipCZ/count.go:71 | a life past that which the code finds too short |

## Left out

- Hashing, signatures, ECDH, ChaCha20, HMAC and bech32: foreign libraries, parameters here where a result depends on them.
- JSON, hex, base64 and URL handling, and the parsing of events into claims and attestations: values arrive parsed.
- Relay, network and journal code, and goroutines: the replay cache is modelled by the order in which its lock is taken.
- Error texts and the reasons kept in verdicts: only which error, or which state.
- What a session with a foreign peer comes to once a reply is heard differently: `Wire.HeardAsSent` says exactly when that is.
- RoundBound.EverySessionConverges: its number of rounds does not fall as the limits grow, because a cut answer closes with one fingerprint for the rest and may lose the splits made there, so rounds are counted by items passed.
- Allocation for counts a peer declares: decoding is modelled by its result.
- The floating point of calcPaddedLen: the next power of two is computed on integers, as lengths stay below 2^32.
- Overflow of the clock's own seconds in the freshness check: now is an unbounded integer.
- PendingEntry, ApplyLookup, DerivedEntryExists, WithExpiry, Prunable and WrapExpiration of nipCP, ConfirmationsFor of nipCO, selectCopy of nipCZ, the tag loop of nip98's verify, and the tag readers of the other packages: one-branch checks and straight field copies.
- Stability of the sort in nipCZ's Count beyond what the result needs: sorting is a stable insertion, not Go's algorithm.
