# Disc Stakka: the unit, its host and its catalogue

This project models a carousel of a hundred disc slots, the host program that drives it over a lossy command link, and
the catalogue that says which disc is in which slot; and it proves that the three stay in step.

The layers, from the wire up:

- **The firmware** (`Firmware`, with its laws in `FirmwareLaws`, `CommandLaws`, `Sensors` and `Courses`): a discrete-event machine
  over values, with a millisecond clock, a queue ordered by time and sequence number, a busy window, commands dropped in
  silence, and the handlers of every opcode. `Simulator` holds the same machine as objects with fields updated in place;
  every method is proved equal to the function it implements.
- **The host** (`Host`, with its laws in `Pairing`, `Runs`, `Motions`, `MoveLaws`, `LoadLaws` and `Hands`):
  message-number pairing, retries, polling loops with deadlines, homing, moving, parking, resetting, taking a disc in and
  putting one back. Each polling loop, each move and each load is proved equal to a function of the state it starts in,
  and what those functions can be relied on for is proved by induction over their polls. Pairing and waiting are proved on a line of any make as well: one that delivers packets of
  any kind, number and content in place of the unit's own.
- **The flows** (`Flows`, `FlowLaws`, `Jobs`, `Catalogue`, `Service`, `Stalls`): eject, add, return and reset, each
  driving the unit, its job and the catalogue; any script of such jobs; and the one way that hands can make one go wrong.
- **The controller** (`Controller`): requests, workers, probes and the keeper as threads, one step per lock taken or
  given back.
- **The pages** (`Site`): requests as atomic steps landing anywhere in a running job.

Three ideas carry most of the proofs. `Good` is the invariant of the firmware: the busy window covers every pending
motion, at most one disc is on its way, and no move was ever processed with a disc in the bay. `Outlook` is where a unit
left to itself is heading: its slots, position and bay once every pending motion has run, which waiting does not change.
`Stage` is how far a disc that was fed has got, so that a wait of hundreds of polls becomes arithmetic on three numbers.

The people in front of the unit are parameters: how long after the prompt a disc is fed or taken, if at all. Lost commands
are a sequence of draws of any length and pattern. A pulled cable is an instant after which reads fail. Two regimes run
through the flows. With hands that reach for the bay at any time whatever, no disc is ever turned with, no ack timer
outlives its job, no disc is unaccounted for and no slot that holds one is called free (`Between`, `Retains`), but for one
case named below. With hands that keep to the prompts, the catalogue agrees with the unit after every job (`Trusted`).

What the proofs found beyond what the program claims for itself:

- Each status poll takes 243 ms whatever the unit does, so a wait's last look comes at a known instant, after its own
  deadline for both windows in use (30,032 ms and 5,003 ms). An insertion or a take is reported if and only if it comes
  no later than that, so the whole of both windows is safe, to the millisecond.
- Three lost accepts take 9,915 ms, a hair longer than what is left of the ack window when the unit is seen idle, so by
  the time a load fails for want of an acknowledgement its disc is already back in the bay and nothing is left pending.
- Left to itself, a unit never fails a move, a retract or a load except by losing all three tries of one command to blips
  (`Unlucky`): the timeouts and the busy refusals of the host cannot be reached. So over any day on which no command loses
  three tries running, however many blips there are, every job whose hands do their part is done, and ends home with an
  empty bay; and this is proved of the jobs as they are, not of the steps alone.
- Hands are another matter. Each take keeps the unit busy for a moment and hides it from four looks at most, so thirty
  takes still to come cannot defeat a wait of thirty seconds, and thirty-one can (`Hands.HandsNeeded`,
  `Hands.HandsStallAnything`).
- A load can slip that way: its disc is seen, its accept acknowledged and the disc in its slot, but the job gives up
  waiting for the end of it, and the catalogue goes on calling the slot free. The state a load begins in decides whether
  it slips (`FlowLaws.LoadSlips`). Among the jobs of `Service`, on a unit that stays plugged in and is fed only when asked,
  no slot with a disc in it is called free unless a load slips, and one is as soon as a load does (`Service.DayExactly`);
  with twenty-nine takes or fewer still to come when it begins no load slips, and with thirty, or any number above, one
  can (`Stalls.HandsThatSlip`). Outside those jobs there are other ways: a row deleted on its page while its disc is in,
  and a cable pulled between the accept and the catalogue's write.
- A request that submits a job sees the truth: its job is accepted exactly if no other was unfinished when it looked
  (`Controller.SubmissionDecided`). The keeper and a probe do not quite: they ask which job is the current one and whether
  it is done under different locks, and a job that starts in between does not turn them away
  (`Controller.GlanceCanMiss`); only the device lock keeps them from the unit then.
- The stretch between a disc being drawn in and its catalogue row being written leaves a timer running; the ten
  second watch after a load is what guarantees that no later load is spat out by it. If the catalogue refuses the row, the
  watch is skipped and that guarantee is lost; the guards of the pages are what keep that from happening.

## Model

| member | source | states |
|---|---|---|
| Simulator.Carousel.At | discstakka/simulator.py:178-183 | scheduling a closure puts it in (time, sequence) order and changes nothing else |
| Simulator.Carousel.WorkFor | discstakka/simulator.py:190-192 | the busy window is only ever lengthened |
| Simulator.Carousel.RunDue | discstakka/simulator.py:185-188 | the pop-and-run loop, which ends for any queue, comes to the recursive meaning of running what is due |
| Simulator.Carousel.Fire | discstakka/simulator.py:234-260 | each closure does what its event says, at the time it is run rather than the time it was due |
| Simulator.Carousel.DiscArrived | discstakka/simulator.py:241-244 | a disc at the aperture raises the flag, keeps the unit busy and schedules being drawn off |
| Simulator.Carousel.DiscDrawnOff | discstakka/simulator.py:246-251 | drawn off, it awaits its acknowledgement and its expiry is scheduled |
| Simulator.Carousel.AckWindowExpired | discstakka/simulator.py:253-260 | an expiry puts an unacknowledged disc back out and latches the error, and is nothing if it was acknowledged |
| Simulator.Carousel.DiscTaken | discstakka/simulator.py:234-237 | a hand empties the bay, latching the error flag whether or not a disc was there, and keeps the unit busy for a moment |
| Simulator.Carousel.CarouselArrived | discstakka/simulator.py:321-326 | a move ends at its target, homed, with the disc out if it was asked for and there |
| Simulator.Carousel.DiscBackInSlot | discstakka/simulator.py:334-338 | half way through a retract a disc in the bay is back in the slot behind it |
| Simulator.Carousel.Status | discstakka/simulator.py:200-218 | the status word, flag by flag |
| Simulator.Carousel.StatusReply | discstakka/simulator.py:297-299 | the four bytes of a status reply |
| Simulator.Carousel.Handle | discstakka/simulator.py:264-295 | one command: what is due first, then heard or dropped in silence |
| Simulator.Carousel.Receive | discstakka/simulator.py:274-295 | the two silent-drop rules and the blip draw, in their order |
| Simulator.Carousel.Dispatch | discstakka/simulator.py:291-365 | every opcode's handler and its reply; `Sensors` says, flag by flag and to the millisecond, what each comes to |
| Simulator.Carousel.SetPos | discstakka/simulator.py:308-329 | a move's travel, busy window, arrival and reply; `Sensors.MoveTravels` says how long it takes |
| Simulator.Carousel.AcceptDisc | discstakka/simulator.py:367-380 | an accept stores the disc behind the mouth, or declines without one |
| Simulator.SimulatedTransport.Open | discstakka/simulator.py:423-434 | opening fails as told or when the unit is gone, and otherwise latches the announcement |
| Simulator.SimulatedTransport.Read | discstakka/simulator.py:441-450 | a read moves the clock by at most one repeat, runs what is due and returns the latched packet |
| Simulator.SimulatedTransport.Write | discstakka/simulator.py:452-470 | a write is heard by the unit it names, and only a reply replaces the latched packet |
| FirmwareLaws.EnqueueSorted | discstakka/simulator.py:178-180 | the queue stays in order of time and arrival |
| FirmwareLaws.RanIsWhatWasDue | discstakka/simulator.py:185-188 | one pass runs exactly what was due when it began, earliest first: what those closures schedule is for later |
| FirmwareLaws.RunDueAges | discstakka/simulator.py:185-188 | running what is due keeps every invariant, loses no disc, leaves only the strict future and, in a unit left to itself, does not change where it is heading |
| FirmwareLaws.RunDueTwice | discstakka/simulator.py:185-188 | a second pass at the same instant does nothing |
| FirmwareLaws.AlteredTidy | discstakka/simulator.py:241-345 | every closure keeps at most one disc on its way and nothing turning while one is at the mouth |
| FirmwareLaws.AlteredConserves | discstakka/simulator.py:230-260 | every closure conserves discs: slots, bay, mouth, transit and hands add up to the same |
| FirmwareLaws.SteppedClaims | discstakka/simulator.py:241-345 | no closure puts a disc into a slot that was not claimed for one, whatever hands do |
| FirmwareLaws.SteppedCovered | discstakka/simulator.py:190-251 | every closure leaves the busy window covering every pending motion |
| Courses.AlwaysCovering | discstakka/simulator.py:178-196 | whatever host and hands do and in whatever order, no pending motion outlasts the busy window |
| Courses.IdleAlwaysMeansDone | discstakka/simulator.py:194-196 | so in every state the unit can get into, one that is not busy has nothing moving and no disc at its aperture |
| Courses.AlwaysGood | discstakka/simulator.py:308-380 | along every course that moves only with an empty mouth and feeds only a resting unit, all invariants hold |
| Courses.CarefulNeverTurns | discstakka/simulator.py:308-329 | along every such course no move is ever processed with a disc in the bay |
| Courses.AlwaysBounded | discstakka/simulator.py:190-192 | whatever host and hands do, if moves are sent to slots that exist, the unit is never busy for more than 8,800 ms to come |
| Courses.AlwaysPrompt | discstakka/protocol.py:393-404 | so every state of a unit left to itself, along every such course that keeps the host's rules, is one a move can be relied on in |
| Courses.TakeAnytime | discstakka/simulator.py:230-239 | a hand reaching for the bay at any time breaks no invariant and brings no disc in |
| CommandLaws.IdleMeansDone | discstakka/simulator.py:194-196 | a unit that reports itself idle is where it was heading |
| CommandLaws.ReceiveUnheard | discstakka/simulator.py:274-289 | a dropped command leaves no trace but perhaps a blip |
| CommandLaws.PassiveAges | discstakka/simulator.py:301-306 | a command that moves nothing, or is dropped, is only time passing |
| CommandLaws.SetPosStarts | discstakka/simulator.py:308-329 | a move heard by an idle, empty-mouthed unit starts exactly one motion, whose outcome is known then; `Sensors.MoveTravels` gives its time |
| CommandLaws.RetractStarts | discstakka/simulator.py:331-345 | a retract heard by an idle unit will put the disc in the bay behind the mouth |
| CommandLaws.AcceptStarts | discstakka/simulator.py:367-380 | an accept heard with a disc drawn in will store it, and leaves none awaiting |
| CommandLaws.AcceptDeclines | discstakka/simulator.py:368-371 | an accept heard without one does nothing |
| CommandLaws.SerialTold | discstakka/simulator.py:363-365 | the serial is told even in mid-motion |
| Sensors.FireFlags | discstakka/simulator.py:234-260 | every flag after every closure, by what raises it and what lowers it: the error is latched by a take or by a disc never acknowledged, and by nothing else |
| Sensors.FireToils | discstakka/simulator.py:230-260 | how long each closure keeps the unit at work, and that none shortens what has begun |
| Sensors.FireLeads | discstakka/simulator.py:241-260 | the one closure each leaves to come, and when |
| Sensors.LatchRises | discstakka/simulator.py:185-188 | over any stretch of time the error is raised by takes and unacknowledged discs, and lowered by nothing |
| Sensors.HeardExactly | discstakka/simulator.py:268-295 | a command is answered if and only if it is one of the four requests, or the unit is idle, uninterrupted and, for a move away from home, homed |
| Sensors.LogsExactly | discstakka/simulator.py:268-295 | what is heard goes into one log and what is lost, with its reason, into the other |
| Sensors.ReceiveFlags | discstakka/simulator.py:301-380 | every flag after every command: a heard `0x03`, `0x04` or `0x14` lowers the error, a heard `0x04` and `0x1D` one flag more each, and no command raises any |
| Sensors.MoveTravels | discstakka/simulator.py:308-329 | a move takes 1.5 s and 56 ms for each slot on the way, up or down; presenting takes half a second more, and the unit 1.2 s more after that |
| Sensors.RetractTakes | discstakka/simulator.py:331-345 | a retract has the disc behind the mouth after 1.8 s of its 3.6 s |
| Sensors.AcceptTakes | discstakka/simulator.py:367-380 | an accept has the disc in its slot 1.8 s later, and takes no time without one |
| Sensors.OthersTakeNone | discstakka/simulator.py:301-365 | every other command takes no time |
| Sensors.LostTakes | discstakka/simulator.py:268-289 | nor does one that is lost, unless to an interruption, which takes exactly 300 ms of doing no work |
| Sensors.InterruptedIsDeaf | discstakka/simulator.py:274-289 | and whatever else but the four requests is sent in those 300 ms is lost as well |
| Sensors.WordSpells | discstakka/simulator.py:200-218 | every bit of the status word, by the flag it shows |
| Sensors.ReplySpells | discstakka/simulator.py:297-299 | and where in the reply each of those bits travels, after the position |
| Sensors.RepliesExactly | discstakka/simulator.py:291-380 | what every command is answered with, byte by byte or by the status once it has taken effect |
| Sensors.DrawsExactly | discstakka/simulator.py:274-285 | each command that could be lost to a blip uses up one draw, and no other does |
| Runs.PollTakes | discstakka/simulator.py:441-450 | a status poll takes 243 ms in every state |
| Runs.MasksDecode | discstakka/protocol.py:48-53 | each mask the waits use recovers exactly its own flag, whatever the undecoded bits say |
| Runs.OtherMasksDecode | discstakka/protocol.py:50-52 | so do the masks for an unacknowledged disc and a latched error |
| Runs.StatusRoundTrip | discstakka/protocol.py:90-92 | the status word split into two bytes and rebuilt by the host is unchanged |
| Runs.SerialRoundTrip | discstakka/protocol.py:479-480 | so is every 32-bit serial |
| Runs.WaitTakes | discstakka/protocol.py:287-303 | a wait that fails ends no sooner than its deadline and at most 243 ms after it |
| Runs.WaitSound | discstakka/protocol.py:287-303 | on the simulator's own line, a wait that succeeds does so on the unit's own word at a request made within the wait |
| Runs.IdleSeen | discstakka/protocol.py:305-306 | a unit waited for until idle is at rest |
| Runs.CalmGoesIdle | discstakka/protocol.py:305-306 | one left to itself is seen idle within one poll of the end of its busy window |
| Runs.RequireLost | discstakka/protocol.py:254-276 | a retried command never acknowledged was only time passing |
| Runs.RequireHeard | discstakka/protocol.py:254-276 | one acknowledged was heard after nothing but waiting, by a unit in good order |
| Runs.StatusRun | discstakka/protocol.py:280-281 | a status request is always answered, with the word of that instant |
| Motions.CommandLog | discstakka/protocol.py:230-252 | a command is answered if and only if the unit processed it, and then once |
| Motions.RequireOnce | discstakka/protocol.py:254-276 | a retried command is processed exactly once if it is acknowledged and never if it is not |
| Motions.CutShortLog | discstakka/protocol.py:200-228 | one cut short by the cable was processed at most once |
| Motions.RequireDrops | discstakka/protocol.py:254-276 | a command never acknowledged was lost at every one of its tries |
| Motions.ReceiveSurvives | discstakka/simulator.py:264-295 | any fit command, heard or not, keeps every invariant and adds at most one action |
| Motions.RequireQuietLost | discstakka/protocol.py:254-276 | a resting unit that never acknowledges lost every try to a blip, and is as it was |
| Motions.RequireLostRun | discstakka/protocol.py:254-276 | a command offered only to units able to perform it, and never acknowledged, lost each of its tries to a blip, one after another, with nothing but status requests heard meanwhile |
| Motions.RequireOnlyBlips | discstakka/simulator.py:274-289 | one so offered loses no try to anything but a blip |
| Motions.QuietOffers | discstakka/protocol.py:254-276 | every try finds a resting unit still at rest, and able |
| Motions.RequireUnlucky | discstakka/simulator.py:277-285 | so a resting unit that never acknowledges has lost three tries of one command running |
| Motions.RequireMoved | discstakka/protocol.py:254-276 | a move acknowledged by a resting unit is under way to just where it was sent |
| MoveLaws.TurnEnds | discstakka/protocol.py:402-404 | a move is seen through without timing out, or no try was heard and nothing changed |
| MoveLaws.RequireTurned | discstakka/protocol.py:402-404 | with any hands about, a move acknowledged is bound for where it was sent |
| MoveLaws.HomingTurned | discstakka/protocol.py:308-326 | an acknowledged homing ends homed, and says so |
| MoveLaws.HomedSaysSo | discstakka/protocol.py:308-326 | in any state and with any hands about, a unit passed as homed said so when it was last asked |
| MoveLaws.TurnsThenMoves | discstakka/protocol.py:393-404 | a cleared, homed unit that turns has moved as asked |
| MoveLaws.MoveKeeps | discstakka/protocol.py:393-404 | a move that presents nothing, with any hands about, keeps every invariant and, if it succeeds, ends at rest with nothing at the mouth |
| MoveLaws.RetractSettles | discstakka/protocol.py:454-468 | an acknowledged retract ends with the disc behind the mouth; an unacknowledged one with nothing changed |
| MoveLaws.TalkPrompt | discstakka/protocol.py:379-387 | a command that moves nothing leaves a unit heading where it was, and its error latched unless it is heard and one that clears it |
| MoveLaws.ClearingTold | discstakka/protocol.py:379-382 | after the three commands a reset begins with, the error is still latched if and only if both that clear it were lost; an idle unit without blips misses none |
| MoveLaws.SettledAndAsked | discstakka/protocol.py:397-399 | waiting for a calm unit and looking into its bay latches and clears no error |
| LoadLaws.StageRuns | discstakka/simulator.py:241-260 | how far a fed disc has got after any stretch of time, with hands at the bay or without |
| LoadLaws.LooksPastDeadline | discstakka/protocol.py:59-60 | the last look of both prompted waits comes after their deadlines |
| LoadLaws.InsertSeen | discstakka/protocol.py:419-421 | an insertion is reported if and only if it comes no later than the wait's last look |
| LoadLaws.TakeSeen | discstakka/protocol.py:423-425 | so is a take, and the unit then reports an error |
| LoadLaws.NobodyInserts | discstakka/protocol.py:419-421 | with no disc coming, none is reported |
| LoadLaws.NobodyTakes | discstakka/protocol.py:423-425 | a disc nobody takes is not reported taken |
| LoadLaws.SettleStage | discstakka/protocol.py:446-447 | a unit seen idle has drawn its disc in, with all of the ack window but the last look still to come |
| LoadLaws.SeenIdle | discstakka/protocol.py:446-447 | with no hands about, it is seen idle within 343 ms of being ready to hear the accept |
| LoadLaws.AcceptOffers | discstakka/protocol.py:450-452 | every one of the three accepts reaches an idle unit with its disc still to be acknowledged, before the window closes, and is lost to a blip if it is lost |
| LoadLaws.AcceptRun | discstakka/protocol.py:450-452 | an accept that is acknowledged was heard in time, and three that are not take longer than the window had left |
| LoadLaws.AcceptEnds | discstakka/protocol.py:450-452 | an acknowledged accept, in time or not, leaves no disc awaiting |
| LoadLaws.AcceptStores | discstakka/protocol.py:450-452 | one in time puts the disc into the slot behind the mouth |
| LoadLaws.AcceptThenIdle | discstakka/protocol.py:450-452 | with twenty-nine takes or fewer still to come, an acknowledged accept is seen through |
| LoadLaws.AcceptFollows | discstakka/protocol.py:430-452 | after a settled load every outcome of the accept leaves the unit sound, and no failure leaves a timer; one never acknowledged leaves the error latched |
| Pairing.CarriersTell | discstakka/protocol.py:43-45 | every reply that is read as a status is the unit's status word at the instant its command was performed |
| Pairing.OthersMislead | discstakka/protocol.py:12-14 | the replies that are not would pass for an idle unit's, whatever the unit is doing, and are never read as one |
| Pairing.JudgedSound | discstakka/protocol.py:287-303 | on a line of any make, a wait succeeds if and only if some reply to its own requests is of a kind that carries a status and shows the one wanted |
| Pairing.JudgedByPacket | discstakka/protocol.py:287-303 | so a success is owed to such a packet delivered within the wait, and a line that delivers none can never satisfy it |
| Host.DiscStakka.ReadPacket | discstakka/protocol.py:202-214 | a read returns the latched packet or loses and closes the unit |
| Host.DiscStakka.Send | discstakka/protocol.py:216-228 | a write reaches the unit or loses and closes it |
| Host.DiscStakka.AwaitReply | discstakka/protocol.py:247-252 | on a line of any make, the reply is the first packet to carry the number awaited, and there is none only if none did |
| Host.DiscStakka.Command | discstakka/protocol.py:230-252 | on a line of any make, the reply carries the number after the one read before, wrap-around included; on the simulator's, it is the one computed for this very command, and there is one exactly if it was processed |
| Host.DiscStakka.Require | discstakka/protocol.py:254-276 | the retry loop comes to its meaning, keeps every invariant and writes nothing but status requests and its command; from any state, and even if the unit is lost midway, the command is processed at most once |
| Host.DiscStakka.Status | discstakka/protocol.py:280-281 | the status of the instant |
| Host.DiscStakka.Position | discstakka/protocol.py:283-285 | one retried `0x14`, which moves nothing, and the position byte the unit answered it with |
| Host.DiscStakka.Ask | discstakka/protocol.py:296-300 | on a line of any make, the status in the reply to one fresh request, and none if the reply carries none; on the simulator's, the status of the instant |
| Host.DiscStakka.WaitState | discstakka/protocol.py:287-303 | on a line of any make, the verdict is the one its replies bear out, and a failure comes no sooner than the deadline; on the simulator's, the loop comes to its meaning for every mask and deadline |
| Host.DiscStakka.WaitIdle | discstakka/protocol.py:305-306 | waiting for idle, and being at rest after it |
| Host.DiscStakka.Turn | discstakka/protocol.py:402-404 | the command and the wait that see a move through, for any hands about |
| Host.DiscStakka.EnsureHomed | discstakka/protocol.py:308-326 | a unit that can be homed is, or every try was lost to a blip |
| Host.DiscStakka.GoHome | discstakka/protocol.py:314-326 | one that is not, sent home and asked again |
| Host.DiscStakka.RefuseWithADiscOut | discstakka/protocol.py:406-410 | refused exactly when the bay sensor shows a disc |
| Host.DiscStakka.Clear | discstakka/protocol.py:397-399 | idle and empty-mouthed, or refused exactly for a disc in the bay |
| Host.DiscStakka.MoveTo | discstakka/protocol.py:393-404 | for every slot and from every calm state: at the slot, homed, error cleared, the disc out exactly if asked for and there; or refused for a full bay; or three tries lost to blips; never a timeout, never an error latched, and no move dropped for any other reason; from every state whatever, what the move comes to as a function of that state |
| Host.DiscStakka.Park | discstakka/protocol.py:412-417 | a move home whose failure nobody sees |
| Host.DiscStakka.Reset | discstakka/protocol.py:372-391 | sends the clearing pair before waiting for anything, then goes home under the same guard as any move; an idle unit without blips ends with its error cleared, even when the reset is refused |
| Host.DiscStakka.Errors | discstakka/protocol.py:380-382 | the three clearing commands are written whatever the unit is doing, and move nothing; the error is still latched if and only if both that clear it were lost |
| Host.DiscStakka.WaitForInsert | discstakka/protocol.py:419-421 | what a wait for an insertion reports, for every instant it may come at |
| Host.DiscStakka.WaitForTake | discstakka/protocol.py:423-425 | what a wait for a take reports, for every instant it may come at |
| Host.DiscStakka.Ingest | discstakka/protocol.py:430-452 | a disc seen at the aperture is stored, or blips took every accept and it is back in the bay, the error latched and nothing pending when the failure is raised; with hands about, its slot is claimed only if it was acknowledged, and the wait after that fails only with thirty takes or more still to come |
| Host.DiscStakka.Retract | discstakka/protocol.py:454-473 | the disc is behind the mouth if acknowledged; unacknowledged for blips alone, at every try, it is reported as not taken back exactly when it is still out; nothing but status requests and the retract is written |
| Host.DiscStakka.Open | discstakka/protocol.py:146-167 | a unit on the bus is opened, known by its serial and version, and undisturbed |
| Host.DiscStakka.Handshake | discstakka/protocol.py:330-359 | whatever packet the unit is repeating, claimed or unclaimed, the serial learned is its own |
| Host.DiscStakka.Greet | discstakka/protocol.py:338-355 | one report of the handshake |
| Host.DiscStakka.AskSerial | discstakka/protocol.py:351-355 | a claimed unit tells its own serial when asked |
| Host.DiscStakka.ReadFirmware | discstakka/protocol.py:361-368 | the version bytes, in their order |
| Host.DiscStakka.Alive | discstakka/protocol.py:188-198 | a unit that is there answers, and is not disturbed |
| Host.DiscStakka.Close | discstakka/protocol.py:174-178 | a closed handle forgets its serial and version |
| Catalogue.AddedIsStored | discstakka/catalog/db.py:219-237 | a new row adds its slot to the stored ones and keeps slots unique |
| Catalogue.MarkedIsMoved | discstakka/catalog/db.py:256-277 | marking a disc moves its slot, and no other, in or out of the stored ones |
| Catalogue.Table.GetDisc | discstakka/catalog/db.py:131-132 | the row of an id, if there is one |
| Catalogue.Table.GetBySlot | discstakka/catalog/db.py:135-136 | a row for a slot exactly when one references it |
| Catalogue.Table.NextFreeSlot | discstakka/catalog/db.py:143-149 | the lowest free slot, and none exactly when the carousel is full |
| Catalogue.Table.FreeSlots | discstakka/catalog/db.py:152-154 | every free slot once, lowest first |
| Catalogue.Table.LogEvent | discstakka/catalog/db.py:200-204 | an entry naming a disc there is not is refused |
| Catalogue.Table.CreateDisc | discstakka/catalog/db.py:207-238 | a row for a slot that exists and is free, journalled; refused otherwise with nothing changed |
| Catalogue.Table.Mark | discstakka/catalog/db.py:256-277 | out or stored, journalled; refused with nothing changed for a disc there is not |
| Catalogue.Table.DeleteDisc | discstakka/catalog/db.py:280-291 | the row goes, and the journal keeps its entries without the id |
| Jobs.Job.constructor | discstakka/jobs.py:45-58 | a job starts out moving |
| Jobs.Job.SetPhase | discstakka/jobs.py:62-66 | a phase change keeps a live job live |
| Jobs.Job.Succeed | discstakka/jobs.py:73-78 | a live job ends once, done and without an error |
| Jobs.Job.Fail | discstakka/jobs.py:80-86 | a live job ends once, failed and with one |
| Jobs.Job.TakeSnapshot | discstakka/jobs.py:90-110 | what a page sees of a job is consistent: never done and prompting at once, and with an error exactly if it failed |
| Jobs.PromptsOnce | discstakka/jobs.py:31-33 | over the phases of each flow a load prompts once, for its disc; an eject once, for its take, if there is a disc to take; and a reset never |
| Jobs.RecentOfRecent | discstakka/jobs.py:127-132 | forgetting the oldest as one goes is keeping the last so many of all |
| Jobs.JobRegistry.Add | discstakka/jobs.py:127-132 | after any addition the registry holds exactly the most recent jobs, each under its id |
| Jobs.JobRegistry.Get | discstakka/jobs.py:134-136 | a job is found exactly while it is held |
| FlowLaws.ParkedHome | discstakka/flows.py:43-94 | a flow that ends by parking ends home, but for a disc in the bay or all three tries of a command lost to blips |
| Hands.FewHandsSeenPast | discstakka/protocol.py:287-306 | a wait for idle with more looks in it than the takes still to come can spoil, at four looks a take, sees the unit idle, whenever they come |
| Hands.HandsNeeded | discstakka/protocol.py:305-306 | so thirty takes cannot defeat a wait of thirty seconds for a unit otherwise idle |
| Hands.KnockedNeverIdle | discstakka/simulator.py:234-239 | a unit at which hands keep reaching for the bay is not seen idle for as long as they do |
| Hands.HandsStallAnything | discstakka/protocol.py:305-306 | and thirty-one can, whatever the unit is doing when the wait begins |
| FlowLaws.SeenOut | discstakka/flows.py:38-39 | with any hands about, a disc seen in the bay of a unit at rest has left the slot behind the mouth |
| FlowLaws.PresentsSecures | discstakka/protocol.py:423-425 | takes at any time lose no disc and claim no slot |
| FlowLaws.NoneArmed | discstakka/simulator.py:246-260 | a queue whose last expiry is past, and all of whose closures are still to come, holds no ack timer |
| FlowLaws.MoveExcused | discstakka/protocol.py:393-410 | a move of a unit left to itself fails only for a disc in its bay or for all three tries of a command lost to blips |
| FlowLaws.HomeParks | discstakka/protocol.py:412-417 | parking touches no disc, whether or not the carousel gets home |
| FlowLaws.EjectWaited | discstakka/flows.py:59-90 | a presented disc is gone exactly if it was taken within the window |
| FlowLaws.EjectPutBack | discstakka/flows.py:62-75 | a disc put back is in its slot, or still in the bay in front of it |
| FlowLaws.AddAwaited | discstakka/flows.py:115-127 | a disc fed within the window is the one seen |
| FlowLaws.AddIngested | discstakka/flows.py:129-132 | taken in, it is in the slot; not taken in, it is in no slot and no timer runs |
| FlowLaws.TakenInWatched | discstakka/flows.py:145-154 | the watch outlasts the timer of the disc just loaded, so that none is in the queue when it is over |
| Flows.AwaitInsert | discstakka/flows.py:115-121 | the prompt to insert, for any instant of the insertion or none |
| Flows.AwaitTake | discstakka/flows.py:52-59 | the prompt to take, for any instant of the take or none |
| Flows.WatchLoaded | discstakka/flows.py:149-154 | ten seconds of watching, to the poll, that keep everything |
| Flows.RunReset | discstakka/flows.py:19-24 | a reset that returns leaves the unit home with an empty bay, and is journalled once; it raises, journalling nothing, only for a disc in the bay or blips at every try of a command |
| Flows.Fetch | discstakka/flows.py:36-39 | the disc is in the bay exactly if its slot held it, or nothing has left its slot |
| Flows.NothingOut | discstakka/flows.py:39-50 | an empty slot fails the job, which names the disc, and is journalled as that; it changes no belief, and the carousel goes home |
| Flows.TakenAway | discstakka/flows.py:90-98 | a taken disc is marked out and journalled, the carousel goes home and the job is done |
| Flows.PutAway | discstakka/flows.py:76-88 | put back, the disc is journalled so and the carousel goes home |
| Flows.TakeBack | discstakka/flows.py:59-88 | a disc not taken is put back and journalled so; or the failure is journalled, the disc is in the bay behind its slot and no move is written after the retract |
| Flows.Hand | discstakka/flows.py:52-98 | the disc presented: taken, marked out and home; or put back, and no move written after a failed retract |
| Flows.RunEject | discstakka/flows.py:27-98 | done exactly when the row is marked out and journalled; failed, with exactly one entry for that disc and slot, of the kind that goes with the phases the job went through; it presents a disc exactly if the slot held one; whenever it returns it names the disc, unless there is no row for it, and when it raises it journals nothing; if it returns, it is done exactly when the slot held the disc and it was taken in time; it raises only for a disc already in the bay or blips at every try of a command; a job whose retract failed wrote no move after it |
| Flows.EjectFrom | discstakka/flows.py:34-98 | the same of a disc that has a row |
| Flows.Invite | discstakka/flows.py:111-121 | the slot at the mouth and a disc seen, or nothing changed |
| Flows.NobodyCame | discstakka/flows.py:121-127 | no disc, no change but one entry of the failure, and the carousel goes home |
| Flows.TakeIn | discstakka/flows.py:129-167 | a disc at the aperture goes in, is catalogued and journalled and the job names its row; or it is back out, or is given up on once acknowledged, with nothing journalled |
| Flows.Enter | discstakka/flows.py:140-143 | the disc is catalogued once, as returned or as new, with one entry that names its row and slot |
| Flows.Finish | discstakka/flows.py:134-167 | home, catalogued and watched, with no ack timer left in the queue; the job names the row written, and wants its details exactly if it is new |
| Flows.BringHome | discstakka/flows.py:134-135 | parked with its disc in, a unit keeps it and the timer it started |
| Flows.RunAdd | discstakka/flows.py:101-167 | done exactly when the disc went in and is catalogued, with one entry that names the row and slot the job names, its details wanted exactly if it is new; failed with one entry for that slot, through just the phases of a load nobody fed; when it raises it journals nothing; if it returns, it is done exactly when a disc was fed; it raises only for a disc already in the bay or blips at every try of a command, with the slots as they were; with hands about, it leaves the slot unclaimed unless it slips, and if it slips it raises the timeout with the slot claimed; after a success no ack timer is left in the queue |
| Service.EjectAgrees | discstakka/flows.py:90-93 | after an eject the catalogue still agrees with the unit |
| Service.AddAgrees | discstakka/flows.py:137-143 | after a load the catalogue still agrees with the unit |
| Service.CataloguedStores | discstakka/flows.py:140-143 | the row written stores exactly the slot loaded |
| Service.EjectRetains | discstakka/flows.py:59-98 | with takes at any time, an eject loses no disc and leaves no slot that holds one free in the catalogue |
| FlowLaws.FewHandsNeverSlip | discstakka/flows.py:113-132 | no load slips with twenty-nine takes or fewer still to come when it begins |
| Service.AddRetains | discstakka/flows.py:113-143 | with takes at any time, a load loses no disc, and leaves a slot that holds one free in the catalogue if and only if it slips |
| Service.PagesAccept | app.py:301-356 | the jobs the pages start are those the catalogue can accept, and no others |
| Service.EjectWrites | discstakka/flows.py:90-93 | what an eject writes is the write the pages reckon with |
| Service.AddWrites | discstakka/flows.py:137-143 | so is what a load or a return writes |
| Service.EjectDelivers | discstakka/flows.py:36-98 | an eject that can be believed is done exactly when the disc is taken, but for a full bay or blips at every try of a command, and leaves the carousel home |
| Service.AddDelivers | discstakka/flows.py:113-167 | a load that can be believed is done exactly when a disc is fed, but for a full bay or blips at every try of a command, and leaves the carousel home |
| Service.ClearedAgrees | app.py:494-526 | correcting the row behind the mouth restores agreement once the bay is emptied |
| Service.Perform | discstakka/device.py:206-213 | any job of any kind keeps belief, discs and safety, makes the one write the pages reckon with and, if its runner returns, the one entry that goes with it, and is done exactly when the hands did their part, but for a full bay or blips at every try of a command |
| Service.EjectRecorded | discstakka/flows.py:27-98 | what an eject journals is the one entry of its disc, slot and outcome |
| Service.LoadRecorded | discstakka/flows.py:121-143 | so is what a load or a return journals |
| Service.BlamedRecorded | discstakka/device.py:192-199 | so is the failure journalled for a job, as the pages make them, that raised |
| Service.RunOwned | discstakka/device.py:190-231 | whatever is raised, every job ends once, and well exactly when it should; if its runner raised, the journal has what it had and exactly a failure of the disc and slot the job was made for (nothing, if that disc has no row), and if not, exactly the entry of its runner; one whose unit could not be opened journals nothing |
| Service.ClearOut | discstakka/flows.py:69-73 | a disc stuck in the bay of a unit that has stopped, taken out and corrected by hand, leaves the bay empty and restores the belief, with one entry of the correction and no other |
| Service.TendUnit | discstakka/device.py:153-168 | after one pass of the keeper a unit on the bus is open, and undisturbed if it was already |
| Service.ProbeUnit | discstakka/device.py:116-129 | the diagnostics page shows the status of the instant; for a latched error it asks for nothing that would clear it and shows no position, and otherwise the position the unit told |
| Service.Serve | app.py:301-356 | a request is let through exactly when the catalogue allows it, as a job for its own disc and slot, which writes one entry of what became of it |
| Service.DayJournal | discstakka/device.py:192-219 | over any script of requests the journal loses nothing, and gains one entry for each job let through and at most one for each time the bay is cleared out |
| Service.LuckyBay | discstakka/protocol.py:254-276 | on a day on which no command loses three tries running, an empty bay is empty after every request |
| Service.DayDelivers | discstakka/flows.py:27-167 | and on such a day, blips or none, every job let through is done exactly when the hands do their part, and leaves the carousel home with an empty bay |
| Service.DayExactly | discstakka/flows.py:113-143 | over any script of requests, takes at any time: no slot that holds a disc is called free up to a moment if and only if no load slips before it |
| Service.DayTucked | discstakka/flows.py:113-143 | so none ever is if at no load of the script more than twenty-nine takes can be still to come, counting those the requests before it set |
| Service.ServeAll | discstakka/device.py:172-231 | any script of requests: for takes at any time, never turned with a disc in the bay and, with so few of them, no disc lost and no slot that holds one called free; for takes in their windows, the catalogue agrees with the unit |
| Stalls.HandsMakeItSlip | discstakka/flows.py:113-132 | from rest at home, with thirty takes or more to come at 972 ms intervals, a load of the first slot slips: moved, seen, acknowledged, stored and given up on |
| Stalls.HandsThatSlip | discstakka/protocol.py:450-452 | with so many takes still to come some load slips, of a unit that the catalogue has right, if and only if they are more than twenty-nine |
| Service.NewUnitStill | discstakka/simulator.py:143-170 | a unit just switched on is in good order, and the bound on its busy window holds of it |
| Service.Commission | discstakka/protocol.py:134-167 | a new unit, opened, is known by its serial and believed by a catalogue that lists its discs, for both regimes of hands |
| Controller.StepOwned | discstakka/device.py:50-53 | every step of every thread keeps each lock with the one thread that stands where it holds it |
| Controller.StepSane | discstakka/device.py:172-182 | every step keeps the account of jobs accepted, running, finished and listed, and what each thread has been told of them |
| Controller.OneTouches | discstakka/device.py:82-110 | in every reachable state at most one thread talks to the unit, and it holds the device lock |
| Controller.OneLiveJob | discstakka/device.py:172-182 | at most one accepted job is unfinished, and exactly one thread is seeing to it |
| Controller.SubmitJudged | discstakka/device.py:173-175 | what a submission sees is whether an accepted job is unfinished at that moment |
| Controller.VerdictKept | discstakka/device.py:173-176 | and that decides whether its job is the next to be accepted |
| Controller.StepAlone | discstakka/device.py:172-182 | a step accepts no job but the one its thread is about, and moves no other thread |
| Controller.SubmissionDecided | discstakka/device.py:172-182 | over any run, whatever the other threads do: a submission that has been decided had its job accepted if and only if no accepted job was unfinished when it looked |
| Controller.GlanceJudged | discstakka/device.py:60-92 | a probe or the keeper is turned away exactly if the job it was told of is still the one running, and let through otherwise |
| Controller.GlanceCanMiss | discstakka/device.py:60-66 | which is not to say that none is running: in a reachable state the keeper is about to learn that job 1 is done while job 2 runs |
| Controller.FreeUnitClaimed | discstakka/device.py:93-110 | let through, the keeper has the unit at once if nobody is using it, and leaves it if somebody is; a probe can take it if it is free |
| Controller.NextKeeps | discstakka/jobs.py:112-115 | a finished job stays finished |
| Controller.LiveJobFound | discstakka/device.py:177-181 | from the moment its worker is started the live job is found by its id |
| Controller.RegistryHoldsTheLatest | discstakka/jobs.py:118-136 | the registry holds the last forty jobs accepted, but for one on its way in |
| Controller.LeavesFinished | discstakka/device.py:222-231 | a worker lets go of the unit only once its job has its result, whether or not the runner gave it one |
| Controller.LockOrder | discstakka/device.py:50-53 | no thread holds both the central and the device lock, and whoever holds a job's lock waits for nothing |
| Controller.ReadySteps | discstakka/device.py:60-110 | a thread that is not kept waiting can take a step |
| Controller.NoDeadlock | discstakka/device.py:82-110 | whoever is not finished can step, or waits for one that can, or for one that waits for one that can |
| Site.MarkStaysSafe | app.py:494-526 | a guarded correction cannot spoil the running job's last write |
| Site.DeleteStaysSafe | app.py:260-296 | nor can a guarded deletion |
| Site.CreateStaysSafe | app.py:452-481 | nor can a guarded manual entry |
| Site.VisitedStaysConsistent | app.py:97-120 | whatever page is asked for, and whatever the job does, its write can still be made and no slot is held twice |
| Site.NoWriteRefused | app.py:260-526 | over every history of requests and job steps the running job's disc keeps its slot and status, or its slot stays free, so its write is never refused |
| Site.JobFor | app.py:301-356 | a request becomes a job only of a kind whose write the catalogue would take at that moment |
| Site.Pages.Start | app.py:113-120 | a second job is bounced to the first |
| Site.Pages.Eject | app.py:302-320 | accepted exactly for a disc in its slot while nothing runs |
| Site.Pages.Return | app.py:323-341 | accepted exactly for a disc that is out while nothing runs |
| Site.Pages.Add | app.py:344-356 | accepted exactly for a free slot while nothing runs |
| Site.Pages.Delete | app.py:260-296 | deletes exactly a confirmed disc the unit is not working on; the journal keeps its entries without the name, and one that it was removed |
| Site.Pages.RecordManually | app.py:452-481 | records exactly a free slot the unit is not working on, journalled as done by hand |
| Site.Pages.Correct | app.py:494-526 | corrects exactly a disc the unit is not working on, journalled as done by hand |
| Site.Pages.Write | discstakka/flows.py:90-143 | the running job's last write, and its entry, are the ones its kind makes, and are never refused |
| Site.Serve | app.py:97-120 | requests and job steps in any order, answered in turn, make such a history, and no write of a job fails |

## Left out

- `discstakka/transport.py`, hidapi, USB threads and enumeration: the simulated transport is the semantics of the wire.
- The real clock, wall time and the seed of the blip generator: one integer clock, and any pattern of draws.
- Packets that are empty or short, and a write of negative length: the simulated transport never produces them.
- The instant a cable is pulled is noticed on a read, not between a read and the write that follows it.
- Commands are sent with the default acknowledgement wait only. A line of another make delivers any packets it likes, and at the pace of the simulator's.
- `Jobs.Job.TakeSnapshot`: leaves out the kind, the title, the message and the countdown, which are display only.
- SQLite and heap internals: a table keyed by id with unique slots, and a sorted sequence.
- Titles, times, covers, categories, search, paging, editing of a disc's details and schema migration in the catalogue.
- Messages, countdowns, progress notes and the status trace: evidence and display only.
- `Flows.RunAdd`: when the catalogue refuses a disc that is already in, which the guards of the pages rule out, nothing is claimed about the timer it leaves.
- Insertions nobody asked for, and takes after their window for the half of the belief that a disc called stored is in its slot: the program's messages treat these as drift to be corrected by hand. Takes at any time are covered for safety and, up to a load that slips, for the account of discs and for the other half.
- `Service.ServeAll`: stated for a unit that stays plugged in; what is kept when it does not is stated operation by operation.
- `Site.Serve`: each request is one atomic step, so a check and the write it guards are not pulled apart.
- `Controller`: pages that read a job's snapshot, and the presence check that enumerates without opening, take no part in the model; that a running job finishes is shown by `Service.RunOwned`, not by the steps.
- Reconnecting by hand: a close and an open, each of which is modelled, under the claim every one-off makes.
- Flask routing, sessions, templates, scripts, tools and packaging.
