# sel4bench, verified

sel4bench measures the seL4 microkernel. Its applications are small concurrent protocols whose
numbers mean something only if every run stays in lockstep and every end stamp is subtracted from
the matching start stamp; its driver then turns samples into statistics, either from the stored
samples (late processing) or from two running sums (early processing). This project models that
core in Dafny and proves what it relies on.

**How the protocols are modelled.** Each thread is a program counter with loop counters and stamp
variables; a step relation says which thread can move: blocking rendezvous, call and reply,
notifications, a lock with condition variables, or fixed-priority choice of the runnable thread. A
clock that advances by an arbitrary positive amount at each step supplies the stamps, and logs of
message, reply, fault and signal times let the theorems say which events lie between two stamps.
A run is any finite sequence of states linked by steps, so `EveryRun` in each module is a statement
about every interleaving, for any number of runs, warm-ups, waiters, guests and any FIFO capacity.
Each gives a bound on the length of a run (so every run ends), safety in every state, and what holds
in a state in which nothing can move. Library locks and kernel calls are taken by contract.

**How sequential code is modelled.** Loops are methods with invariants, structures updated in place
are classes or arrays, and `ccnt_t` and word arithmetic wraps modulo an explicit range that is a
parameter. Double and long double are `real`, except for the rounding the code asks for.

| module | what it is about |
|---|---|
| `Ipc` | IPC ping-pong: clients, servers, driver, and the table that pairs them |
| `ProducerConsumer`, `Broadcast` | the monitor benchmarks |
| `Fault` | faulter and handler pairs, late and early forms |
| `Scheduler`, `Signal` | lockstep by priority; generated priorities |
| `Statistics`, `OrderStatistics` | mean, variance, median, quantiles, mode |
| `Processing`, `DataCollect` | late processing of a result array; early processing by running sums |
| `Measurement` | protocol and statistics together: one run of the signal benchmark, processed both ways |
| `PageMapping` | slots, untyped memory, tables and mappings of the page-mapping benchmark |
| `VcpuGuest`, `Vcpu` | the guest's measuring loop; the monitor's message loop, end to end |
| `Transport`, `CapSlots` | a counter in message words; contiguous capability numbers |
| `Stamps`, `Sums`, `Modular`, `Options` | shared helpers |

Where the code departs from the obvious intent, the model follows the code:

- `results_mode` never compares the last run of equal values, so it can miss the mode;
  `OrderStatistics.WhenModeIsTrue` says exactly when, over the samples alone.
- `guest_run_bm` starts its minimum at 0, where it stays (`VcpuGuest.ZeroIsLeast`).
- The median adds its two middle samples as machine words. If the sum wraps, it is not the
  0.5-quantile (`OrderStatistics.MedianIsMiddleQuantile`), and subtracting the overhead moves it only
  under the condition in `Processing.ShiftMedian`.
- The extra last slot of the fault-reply results is stale (`Fault.LastReplySlotIsStale`), and so is
  the first producer sample (`ProducerConsumer.FirstProducerSampleIsStale`); both are in positions
  that are not read.
- Early processing subtracts the least of all measured overheads, late processing one computed without
  the ignored prefix; their agreement is stated for any two overheads.
- The comment in `apps/vcpu/src/guest.c` at line 536 says that anomalies are left out of the complete
  average too; the code includes them.

## Model

| member | source | states |
|---|---|---|
| `Ipc.TableIsPaired` | libsel4benchsupport/include/ipc.h:73-200 | in every row of the benchmark table the client's call before the loop, its send after it and its reported stamp fit the server's last reply and reported stamp |
| `Ipc.StepKeepsInv` | apps/ipc/src/main.c:161-258 | each step of client, server or driver keeps messages and replies matched and every stamp where it belongs among them, and lowers a rank |
| `Ipc.NeverStuckEarly` | apps/ipc/src/main.c:305-350 | as long as fewer than two results have arrived, some thread can move |
| `Ipc.DeliveredIsMeaningful` | apps/ipc/src/main.c:161-258 | once both results are in, the two stamps bracket exactly one message or reply and nothing else; W + 1 messages and none, W or W + 1 replies were exchanged; the stored value is their distance in either order of arrival |
| `Ipc.EveryStateOfARun` | apps/ipc/src/main.c:451-458 | every state of every run of any matching pair is matched, has at most two results, and is stuck only with both |
| `Ipc.DeliveredIsComplete` | apps/ipc/src/main.c:161-258 | once both results are in, W + 1 messages and none, W or W + 1 replies have been exchanged, for every warm-up count |
| `Ipc.EveryRun` | apps/ipc/src/main.c:161-350 | for every row of the table, every warm-up count and every interleaving: bounded run, matched throughout, no early deadlock, two results with the full numbers of messages and replies that bracket one transfer |
| `ProducerConsumer.StepKeepsInv` | apps/sync/src/main.c:139-171 | each step of either thread keeps the FIFO account, the lock discipline, the absence of lost wake-ups, the pairing of samples and the order of clock readings, acquisitions, signals and releases, and lowers a rank |
| `ProducerConsumer.StuckMeansDone` | apps/sync/src/main.c:139-171 | no deadlock and no lost wake-up: nothing can move only when both threads are done |
| `ProducerConsumer.SamplesTimed` | apps/sync/src/main.c:155-160 | the end of sample k lies after this thread has taken the lock for iteration k and before it stamps, signals and releases in it, and exactly as many stamps, signals and releases of the partner come before it as the sample accounts for |
| `ProducerConsumer.StampsTimed` | apps/sync/src/main.c:161-166 | stamp k lies between this thread's acquisition for iteration k and its signal and release in it |
| `ProducerConsumer.PairsInterleave` | apps/sync/src/main.c:139-171 | with capacity 1, consumer sample k ends between the producer's release k and the consumer's stamp k, and likewise for the producer |
| `ProducerConsumer.PairsAlternate` | apps/sync/src/main.c:139-171 | with capacity 1, consumer sample k starts at producer stamp k and producer sample k + 1 at consumer stamp k |
| `ProducerConsumer.FirstProducerSampleIsStale` | apps/sync/src/main.c:139-171 | the first producer sample was taken before any stamp of the consumer's, for every capacity |
| `ProducerConsumer.EveryRun` | apps/sync/src/main.c:139-216 | for every capacity at least 1, every number of runs and every interleaving: FIFO bounds and produced - consumed = head whenever the lock is free, samples use the partner's latest stamp before their end, which lies in its place among all events of both threads, and the end has both threads at N and an empty FIFO |
| `Broadcast.WaiterCompletes` | apps/sync/src/main.c:42-60 | a completion reported by a waiter is counted once, and the last of all of them, with every thread blocked, ends the run |
| `Broadcast.StepKeepsCore` | apps/sync/src/main.c:42-131 | every step keeps lock, phase of the broadcast, completion count and driver consistent, for any number of waiters |
| `Broadcast.StepKeepsResults` | apps/sync/src/main.c:42-83 | every recorded sample is measured from its own run's stamp and ends after it |
| `Broadcast.StepKeepsTimes` | apps/sync/src/main.c:42-83 | a waiter's sample ends after the broadcast of its run and after the waiter's last acquisition in that run, which follows the broadcast, and before its release; the broadcaster takes the lock, stamps, broadcasts, reads the clock and releases in this order in every run |
| `Broadcast.StuckMeansFinished` | apps/sync/src/main.c:42-131 | no deadlock: every waiter passes the test of the shared word, and only the finished driver stops |
| `Broadcast.InvIsSafe` | apps/sync/src/main.c:108-131 | a waiter records only after this run's stamp is written, the driver resets the shared word only while all threads are blocked, and it counts exactly the threads that have completed this run, so a run takes waiters + 1 completions |
| `Broadcast.EveryRun` | apps/sync/src/main.c:42-131 | for any number of waiters and runs and every interleaving: bounded, safe throughout, every sample brackets the broadcast of its run while the lock is held, and at the end one sample per thread and run |
| `Fault.StepMatches` | apps/fault/src/main.c:54-113 | each fault raised is received once and each reply reaches the waiting faulter, for every pairing |
| `Fault.StepAddresses` | apps/fault/src/main.c:81-268 | the k-th fault is raised at the faulting instruction before, in or after the loop, as its number says |
| `Fault.StepResumes` | apps/fault/src/main.c:54-79 | each resume address is the faulting address plus the instruction size |
| `Fault.StepRecords` | apps/fault/src/main.c:81-268 | each sample stored has start and end stamps at the right point among faults and replies |
| `Fault.FreshSampleMeasures` | apps/fault/src/main.c:81-268 | a sample's stamps enclose exactly its own fault and no reply, its own reply and no fault, or its fault with its reply, and nothing else |
| `Fault.LastReplySlotIsStale` | apps/fault/src/main.c:144-180 | the extra last reply sample spans two replies, so it is not a measurement |
| `Fault.StuckMeansDone` | apps/fault/src/main.c:270-304 | both sides finish: nothing can move only when both completions have been sent |
| `Fault.EveryRun` | apps/fault/src/main.c:54-350 | for fault, reply and round trip, late and early forms, any N and every interleaving: matched and correctly resumed throughout, the N samples read are all fresh, every fault answered once at the end |
| `Scheduler.GeneratedPrio` | libsel4benchsupport/include/scheduler.h:13-58 | every generated priority is above the low thread's, at most the maximum, not cut to eight bits, and in the bitmap word of its own index, so all are in different words |
| `Scheduler.BenchmarkOutranks` | libsel4benchsupport/include/scheduler.h:46-58 | the generated priorities meet the hypothesis of the run theorem |
| `Scheduler.StepKeepsInv` | apps/scheduler/src/main.c:28-71 | every step keeps the two threads in lockstep and the notifications and samples in order, and lowers a rank |
| `Scheduler.EveryRun` | apps/scheduler/src/main.c:28-71 | under fixed priorities, for any number of runs and rounds: in run i the high thread signals, stamps and blocks, then the low thread reads the clock, records end i minus start i and replies, then run i + 1 begins; both notifications are clear between rounds, every round completes with a full row |
| `Scheduler.EqualPriosAreUnsafe` | apps/scheduler/src/main.c:258-293 | any run that stands at the start of a round without a higher priority for the high thread can be continued so that a sample is recorded before any stamp |
| `Scheduler.ReachRound` | apps/scheduler/src/main.c:275-289 | while the high thread outranks the low one, every run can be continued into each later round |
| `Scheduler.PairsExactlyWhenOutranked` | apps/scheduler/src/main.c:28-71 | the samples of all runs pair up if and only if the high thread outranks the low one in every round |
| `Signal.EveryRun` | apps/signal/src/main.c:40-79 | with signaller outranked by waiter and driver, in every state of every run sample i is end i minus start i, signal i lies between the two stamps, the waiter's wait before and after them, and the storing after both; the run ends with N samples and a clear notification |
| `Signal.PairsExactlyWhenOutranked` | apps/signal/src/main.c:194-269 | the samples of all runs pair up if and only if both waiter and driver outrank the signaller |
| `Signal.BenchmarkOutranks` | apps/signal/src/main.c:217-218 | the priorities the benchmark configures meet the condition |
| `Statistics.ResultsMean` | apps/sel4bench/src/math.c:16-27 | the running mean, rounded, is the rounded quotient of sum and count; 0 for no samples |
| `Statistics.ResultsVariance` | apps/sel4bench/src/math.c:29-42 | the running variance, rounded, is the rounded mean squared distance from the given mean |
| `Statistics.DeviationFromSums` | apps/sel4bench/src/math.c:158-169 | the sum of squared distances from any centre is determined by count, sum and sum of squares |
| `Statistics.DeviationAround` | apps/sel4bench/src/math.c:29-42 | mean of (x - m)^2 = variance + (mean - m)^2, multiplied out to integers |
| `Statistics.EarlyVarianceIsSpread` | apps/sel4bench/src/math.c:158-169 | the early formula is exactly the mean squared distance from the early mean |
| `Statistics.MeansAgree` | apps/sel4bench/src/math.c:171-182 | late mean minus early mean is 0 or 1 |
| `Statistics.VariancesAgree` | apps/sel4bench/src/math.c:158-182 | early variance minus late variance lies in [-1/2, 3/2) |
| `Statistics.LowerBoundAttained` | apps/sel4bench/src/math.c:158-182 | the lower bound -1/2 is attained |
| `Statistics.UpperBoundApproached` | apps/sel4bench/src/math.c:158-182 | a family of samples whose difference is 3/2 - (5/2)/n, so the upper bound is sharp |
| `Statistics.RoundedCentreBias` | apps/sel4bench/src/math.c:29-42 | taking the rounded mean as centre raises the variance by at least 0 and at most 1/4 |
| `OrderStatistics.QuantileMonotone` | apps/sel4bench/src/math.c:69-88 | on sorted samples the interpolated quantile is monotone in its argument |
| `OrderStatistics.QuantileIs` | apps/sel4bench/src/math.c:69-88 | at position k + d the quantile lies the part d of the way from sample k to the next |
| `OrderStatistics.QuartilesAreAtQuarters` | apps/sel4bench/src/math.c:149-150 | first and third quartile lie where one and three quarters of the distance from the first to the last position fall |
| `OrderStatistics.QuantileEnds` | apps/sel4bench/src/math.c:69-88 | quantiles 0 and 1 are the first and last sample |
| `OrderStatistics.MedianIsMiddleQuantile` | apps/sel4bench/src/math.c:49-88 | the separately coded median is the 0.5-quantile if and only if the count is odd or the middle sum does not wrap |
| `OrderStatistics.FiveNumbersInOrder` | apps/sel4bench/src/math.c:141-150 | min <= first quartile and median <= third quartile <= max always; first quartile <= median if and only if the count is odd or the wrapped middle sum is at least twice the first quartile, in particular if it does not wrap |
| `OrderStatistics.MedianCanWrap` | apps/sel4bench/src/math.c:49-67 | for every word range, two samples of the largest word have a median below their first quartile and their 0.5-quantile |
| `OrderStatistics.WrappedInOrder` | apps/sel4bench/src/math.c:49-67 | samples whose middle sum wraps and whose five numbers are in order all the same |
| `OrderStatistics.MedianAtMostMiddleQuantile` | apps/sel4bench/src/math.c:49-88 | wrapping can only make the median smaller than the 0.5-quantile |
| `OrderStatistics.ResultsMode` | apps/sel4bench/src/math.c:90-122 | on sorted samples returns the sole value, or the smallest of the most frequent values other than the largest |
| `OrderStatistics.ReportedModeIsUnique` | apps/sel4bench/src/math.c:90-122 | that description determines the value |
| `OrderStatistics.WhenModeIsTrue` | apps/sel4bench/src/math.c:103-119 | the result is a mode if and only if there is one value only or some value other than the largest occurs at least as often as the largest |
| `OrderStatistics.ModeCanBeMissed` | apps/sel4bench/src/math.c:103-119 | on 1, 2, 2 the code returns 1, which is not a mode |
| `OrderStatistics.SortedIsUnique` | apps/sel4bench/src/math.c:134-139 | sorting has one result, so trusting the library's sort loses nothing |
| `Processing.CalculateResults` | apps/sel4bench/src/math.c:132-156 | all statistics of the samples, each as specified above, the quartiles at their quarters |
| `Processing.OnlyTheElementsMatter` | apps/sel4bench/src/math.c:132-156 | sample sets equal as multisets have the same results |
| `Processing.ResultsStable` | libsel4benchsupport/include/ipc.h:217-226 | true if and only if all samples are equal |
| `Processing.SubtractOverhead` | apps/sel4bench/src/processing.c:59-61 | in place, subtracts the overhead from every kept sample, wrapping, and leaves the ignored prefix alone |
| `Processing.ProcessResult` | apps/sel4bench/src/processing.c:42-64 | the unstable path returns zeros and leaves the array unmodified; otherwise only the kept part is shifted and the results are those of the shifted samples |
| `Processing.OverheadIsAPureShift` | apps/sel4bench/src/processing.c:59-63 | if every kept sample is at least the overhead, min, max, mean, quartiles and mode drop by exactly the overhead and the variance is unchanged; the median drops by it if and only if the count is odd or the wrapped sum of the two middle samples is at least twice the overhead |
| `Processing.ShiftMedian` | apps/sel4bench/src/math.c:49-67 | the same condition for the median alone, on sorted samples |
| `Processing.MedianCanStayBehind` | apps/sel4bench/src/math.c:49-67 | for every word range, two samples of the largest word and that word as overhead: the median goes to 0 and not down by the overhead |
| `DataCollect.MaskIsTest` | libsel4benchsupport/include/benchmark.h:43-48 | the top bit of the complement of i - n is the test i >= n if and only if i and n are less than half the word range apart |
| `DataCollect.AdjustedIsDifference` | libsel4benchsupport/include/benchmark.h:46 | the adjusted sample is the word congruent to end - start - overhead, and that number itself if it is a word |
| `DataCollect.AccumulateSums` | apps/signal/src/main.c:104-119 | the loop yields, modulo the word range and whatever wraps, the sum of end - start - overhead and of its square over exactly the runs that are not ignored |
| `DataCollect.KeptAreTimes` | libsel4benchsupport/include/benchmark.h:46 | if each time that is not ignored is a word, the kept samples are exactly those times |
| `DataCollect.SumIsTotalTime` | libsel4benchsupport/include/benchmark.h:43-48 | if each such time is a word, the kept samples add up to the total time |
| `DataCollect.SumsAreExact` | libsel4benchsupport/include/benchmark.h:43-48 | both sums are exact if count * m^2 is below the word range for samples bounded by m >= 1 |
| `DataCollect.GetMinOverhead` | libsel4benchsupport/src/support.c:55-64 | the least of the measured overheads, or the largest word if there is none |
| `DataCollect.SameSamples` | apps/sel4bench/src/processing.c:44-61 | late processing, after dropping the prefix and subtracting, works on exactly the samples early processing has summed |
| `DataCollect.EarlyOverheadIsLeast` | apps/sel4bench/src/processing.c:44-45 | the overhead early processing subtracts is at most the one late processing takes from the runs that are not ignored |
| `DataCollect.SumsOfElements` | apps/sel4bench/src/math.c:134-139 | sum and sum of squares depend on the multiset of samples only |
| `DataCollect.EarlyAgreesWithLate` | apps/sel4bench/src/processing.c:42-69 | end to end on the same runs, with any two overheads: same sample count, means corrected by the difference of the overheads differ by 0 or 1, variances by [-1/2, 3/2) |
| `Measurement.FinishedRunIsLogged` | apps/signal/src/main.c:60-79 | a finished run of the signal benchmark has one start and one end per sample; every sample is their difference, positive, and stored as it is if it is a word |
| `Measurement.ProcessBothWays` | apps/signal/src/main.c:104-119 | the early result from the stamps of a finished run agrees with the late result from its stored samples: same count, means corrected by the overheads differ by 0 or 1, variances by [-1/2, 3/2); the early mean is the integer part of the mean time between the stamps less the overhead |
| `PageMapping.Process.PreparePageTable` | apps/page_mapping/src/main.c:71-115 | slot by slot, the loops perform the table phase and stop at the first failing call |
| `PageMapping.Process.PreparePages` | apps/page_mapping/src/main.c:117-128 | the loop performs the page phase and advances the free slot by the number of pages |
| `PageMapping.Process.MapPages` | apps/page_mapping/src/main.c:130-154 | mapping, protecting and unprotecting perform one remapping per page with the given rights |
| `PageMapping.NumTablesIsCeiling` | apps/page_mapping/src/main.c:27 | as many leaf tables as the pages need and no more |
| `PageMapping.RegionsNest` | apps/page_mapping/src/main.c:83-107 | which table of each level an address falls in |
| `PageMapping.AlignIsMultiple` | apps/page_mapping/src/main.c:117-128 | an object starts at the next multiple of its size |
| `PageMapping.TablesForm` | apps/page_mapping/src/main.c:71-115 | a completed table phase has filled fresh slots only, used exactly the tables' bytes, and covers every page address with a leaf table |
| `PageMapping.TablesSucceed` | apps/page_mapping/src/main.c:71-115 | if everything fits the untyped, every table finds its parent, a free place and memory |
| `PageMapping.PagesForm` | apps/page_mapping/src/main.c:117-128 | pages are packed from the next page boundary on, each in its own fresh slot |
| `PageMapping.AllocateSucceeds` | apps/page_mapping/src/main.c:23-27 | all retypes succeed if and only if tables, padding and pages fit the untyped |
| `PageMapping.AllocationNeedsFreeSlots` | apps/page_mapping/src/main.c:71-128 | from any state whatever, allocation gets through only if every slot it uses was empty |
| `PageMapping.MapAllResult` | apps/page_mapping/src/main.c:130-154 | mapping pages that may be mapped never fails and maps page i through capability first + i |
| `PageMapping.ProtectUnprotectRestores` | apps/page_mapping/src/main.c:142-154 | protecting and then unprotecting gives back the state after mapping, exactly |
| `PageMapping.AddTableKeeps` | apps/page_mapping/src/main.c:101-108 | keeps the one-to-one correspondence of mapped pages and page capabilities and what revocation would leave |
| `PageMapping.MapPageKeeps` | apps/page_mapping/src/main.c:130-140 | the same for mapping a page, first time or again |
| `PageMapping.Process.BenchProc` | apps/page_mapping/src/main.c:158-215 | from an unused untyped with free slots behind it, succeeds if and only if everything fits; page i is mapped through its own capability with all rights, then every page is read-only, then the state is that after the mapping phase again |
| `PageMapping.RevokeKeepsOutside` | apps/page_mapping/src/main.c:324 | revocation removes the untyped's copy and exactly what was made from it |
| `PageMapping.Process.Round` | apps/page_mapping/src/main.c:308-332 | one driver iteration restores kernel state and next free slot |
| `PageMapping.Process.RunLoop` | apps/page_mapping/src/main.c:308-333 | every iteration starts from the same state with the untyped in the same slot, and all succeed if and only if every test fits |
| `PageMapping.SupportedIsValid` | apps/page_mapping/src/main.c:13-60 | start address and table geometry of each architecture keep all leaf tables the budget allows below one next-level table |
| `PageMapping.TableFits` | apps/page_mapping/src/main.c:291-295 | 1, 512 and 2048 pages fit the untyped on each architecture |
| `VcpuGuest.ElapsedIsDifference` | apps/vcpu/src/guest.c:680 | the elapsed time is end - start, across one wrap of the counter if they are out of order |
| `VcpuGuest.Results.RunBenchmark` | apps/vcpu/src/guest.c:668-708 | stores exactly the measured stamps; anomalies are exactly the upward jumps by 800 or more; clipped total plus anomalous samples is the complete total; the clipped divisor is the number of kept samples and at least 1; true maximum; minimum 0, which is the least measurement if and only if one of them is 0 |
| `VcpuGuest.ZeroIsLeast` | apps/vcpu/src/guest.c:672-702 | the reported minimum is the least measurement if and only if some measurement is 0 |
| `VcpuGuest.MinimumCanBeMissed` | apps/vcpu/src/guest.c:672-702 | a single measurement of 5 cycles, reported with minimum 0 |
| `VcpuGuest.Results.AnomalyDetected` | apps/vcpu/src/guest.c:554-582 | true if and only if the measurement is at least 800 above the previous stored one |
| `VcpuGuest.KeptAndJumpsPartition` | apps/vcpu/src/guest.c:688-701 | kept and anomalous measurements partition all of them, and the first is kept |
| `VcpuGuest.TotalsConserved` | apps/vcpu/src/guest.c:696-701 | clipped total plus anomalous samples equals complete total |
| `VcpuGuest.ClippedAverageBounds` | apps/vcpu/src/guest.c:526-532 | without wrap-around the clipped average lies between any bounds of the kept measurements |
| `Vcpu.BadgesDecode` | apps/vcpu/src/main.c:159-171 | badges give back guest and kind of message if and only if the fault bit is not part of the guest number, which the guest limit ensures |
| `Vcpu.RunGuest` | apps/vcpu/src/guest.c:733-756 | one results structure reused for all benchmarks reports every stamp of every benchmark as measured, then exits |
| `Vcpu.ReportResults` | apps/vcpu/src/guest.c:710-726 | reports the stored stamps iteration by iteration |
| `Vcpu.StepKeepsCore` | apps/vcpu/src/main.c:660-701 | every step keeps the reply capability with the guest being served and the slot empty otherwise |
| `Vcpu.StepKeepsFaithful` | apps/vcpu/src/main.c:455-491 | every stored entry is what some guest reported for that benchmark and iteration |
| `Vcpu.StuckMeansFinished` | apps/vcpu/src/main.c:660-701 | the monitor can wait for ever only if a guest is halted |
| `Vcpu.HaltedHasFaulted` | apps/vcpu/src/main.c:501-523 | a guest that is halted was seen sending a fault before |
| `Vcpu.FaultFreeRun` | apps/vcpu/src/main.c:660-701 | in a run without a fault no guest is ever halted and the run can stop only with the monitor finished; with guests that complete, everything has arrived |
| `Vcpu.StoredIsMeasured` | apps/vcpu/src/main.c:475-479 | at any time, an entry that is there is what a guest measured for that benchmark and iteration |
| `Vcpu.StatusesTell` | apps/vcpu/src/main.c:361-385 | when the monitor has finished, all exit statuses are zero if and only if every guest completed its benchmarks |
| `Vcpu.FinalStatus` | apps/vcpu/src/main.c:711-722 | the driver's last loop yields zero if and only if every exit status is zero |
| `Vcpu.EveryRun` | apps/vcpu/src/main.c:660-722 | for any number of guests up to the limit, any measurements, guests that complete or stop early, and every interleaving: the slot is empty at every receive, badges decode, the run is bounded, whatever is stored is as measured, and a finished monitor with clean statuses holds start, end and elapsed of every benchmark and iteration; with one guest, that guest's own |
| `CapSlots.CountIsExact` | libsel4benchsupport/src/support.c:374-394 | the announced count is the number of populated slots |
| `CapSlots.NthCapIsNth` | libsel4benchsupport/src/support.c:396-417 | index n names the populated slot with exactly n populated slots below it |
| `CapSlots.EverySlotIsNamed` | libsel4benchsupport/src/support.c:396-417 | every populated slot is named by the number of populated slots below it |
| `CapSlots.OrderIsomorphism` | libsel4benchsupport/src/support.c:374-417 | for every flag combination, a strictly increasing bijection onto the populated slots, null beyond |
| `CapSlots.OrderOfHolesMatters` | libsel4benchsupport/src/support.c:404-412 | holes are avoided if and only if the ASID pool slot is below the scheduling-context slots or is the last slot of all |
| `Transport.SendResult` | libsel4benchsupport/src/support.c:627-638 | fills the message registers with the words of the count, highest first, and touches no other |
| `Transport.GetResult` | libsel4benchsupport/src/support.c:640-653 | the value of the words, modulo the counter's range |
| `Transport.ValueOfDigits` | libsel4benchsupport/src/support.c:627-653 | reassembled words are the count modulo what they can hold, for any word count including one and none |
| `Transport.RoundTrip` | libsel4benchsupport/src/support.c:627-653 | a count survives the transfer if and only if it is below word range to the number of words |
| `Transport.Transfer` | libsel4benchsupport/src/support.c:627-653 | the same for the two loops one after the other on one set of registers |

## Left out

- Mixed-criticality (MCS) configurations: scheduling contexts, reply objects and passive servers are not modelled.
- Wrap-around of the cycle counter within one protocol run: stamps of the protocols are unbounded; wrapping differences are modelled in the statistics, transport and VCPU parts.
- libsel4sync, sel4utils, allocators and the kernel: taken by contract (lock and condition variable, rendezvous, notification, retype, map, revoke).
- Thread bodies of the protocols are step machines and not classes with methods, because they interleave; a read, a write or a blocking call is one step.
- Early forms of the producer/consumer, scheduler and signal loops take the same stamps as the late ones; only what they add up is modelled, in `DataCollect`.
- Parked helper threads of the scheduler and signal benchmarks leave the model instead of blocking on a notification that nobody signals again.
- `Ipc.DeliveredIsMeaningful`: assumes at least one warm-up round, because with none the loops that read the clock do not execute.
- `Processing.ProcessResult`: needs at least one kept sample, because the code reads the first and last one.
- `DataCollect.EarlyAgreesWithLate`: assumes that the early sums do not wrap and that no sample borrows when the other overhead is subtracted.
- `VcpuGuest.Results.RunBenchmark`: stamps are parameters; how each benchmark obtains them (hypervisor calls, kernel log buffer, cache maintenance) is not modelled.
- `PageMapping.Process.RunLoop`: the time stamps around the phases and their storage by phase are not modelled, nor are address-space limits above the start address.
- Guests: one whose shared data fails the magic-number test returns without exiting, and an exception in any guest is reported in the first guest's name; neither is modelled.
- Standard deviation (square root), floating-point rounding, `process_average_results` and the column loops of `process_results`: only easy claims.
- The high-priority signaller, yield and set-priority benchmarks, the hardware, SMP and IRQ applications, counter chunks and averages.
- JSON output, process set-up, serial, timer and device-tree code.
