# DaZeus core, modelled and proved

DaZeus is an IRC bot core that runs its plugins as separate processes and talks to them over
sockets.  This project models the parts of it that keep state over time, in Dafny, and proves
what they are for.  `dafny verify dfyconfig.toml` checks everything.

**The plugin supervisor** (`Backoff`, `Supervisor`, `SupervisorSafety`, `StartTurns`, `Monitor`).
`Supervisor` is a state machine over everything that can happen: a child exits, SIGCHLD becomes
pending or is delivered, each step of `runOnce`, a configuration reload, time passing.  Its
invariants give: no lost wake-up, one process per plugin, a bound on the restart rate, exactly which
plugins a pass starts, a bound on when the 32-bit wait can overflow, and exact reloads.  `Monitor` is the code itself: objects
whose fields are changed in place, loops over wait4 and over the records, with signals and
exits allowed between any two steps.  Its `Valid(phase)` says that the object is in a state some
run of the state machine reaches, so the theorems hold of it.

**The wire protocol** (`Framing`, `Link`, `PluginSocket`).  The incremental decoder, its
independence of how the bytes are cut up, its abort and its stuck state, the framing round trip,
and the whole connection as a run of arrivals, dispatched events and short writes, with the
end-to-end statement that a plugin decodes a prefix of the bot's messages: the answers as they
fall due and the events as they happen.  `PluginSocket` has the read, parse and write loops of
`poll`; its `Valid()` says that the connection is in a state some run leads to.

**The command queue** (`CommandQueue`, `PluginComm`).  What one flush does, what it may deliver
to whom, and over whole runs: order and conservation per key, at most one WHOIS per command,
delivery exactly as promised.  `PluginComm` changes the queue in place while it walks it, writes
to the sockets, polls them and removes those that were closed; its `Valid()` ties the queue to a
run, and what every plugin was sent to the releases of that run.

**The two tokenisers** (`CommandLine`, `CommandWords`, `Parameters`, `WrittenParameters`,
`DocumentedParameters`).  Command lines from IRC and the `Parameters` option of plugins: loops proved
against a character-by-character scan, what is read from everything that can be written, and the
exact conditions under which substitution, the kept argument text and the documented escapes behave.

**Properties, configuration, networks** (`PropertyStore`, `ConfigDocument`, `ConfigParse`,
`ConfigReader`, `ConfigFields`, `ConfigFile`, `ConfigRoundTrip`, `NetworkReload`).  The property query is the
first hit in a chain of eight scopes, and the documented four-level fallback exactly when no row
skips a level.  The configuration callbacks always hold the meaning of a well-formed beginning of
a document, and report an error exactly if there is none; every configuration with trimmed values
can be written and is read back.  The network loops end in exactly the configured networks.

Where the code and its documentation differ, the model follows the code:

- `dazeus.plugin.sample.conf:28-32` promises `\` as an escape and `%%` for a percent sign, and that
  `%s` and `%n` are replaced; the first two are not special, and inside quotes nothing is replaced.
  The option means what is documented, for all values, exactly if it has no backslash, no unquoted
  `%%` is read in it, and no `%%`, `%s` or `%n` inside quotes (`DocumentedParameters.DocumentedExactly`;
  it fails for `%%`, `\%` and `"%s"`, `DocumentedParameters.NotAsDocumented`).
- `misc/protocol.dox:207-214` shows the keys in a namespace without its name; whole keys are returned,
  and not only those in the namespace.  The two agree exactly if no namespace is given or nothing is
  listed (`PropertyStore.ListedAsDocumentedExactly`).
- `misc/protocol.dox:223-228` describes four scopes; rows that skip a level (a sender without a
  receiver, say) are also found (`PropertyStore.DocumentedExactly`).
- A size of zero before a `{` never leaves the buffer, so the connection makes no more progress; in
  every other state there are bytes that bring it to a packet or to its end (`Framing.StuckExactly`).
- In the middle of `configReloaded` the supervisor may be at rest while a plugin still waits to be
  started (`SupervisorSafety.ReloadInProgressCanBeDown`).  Everything runs at such a moment exactly
  if a pass over the records was completed since the reload began or every plugin had its process to
  begin with (`SupervisorSafety.AtRestInReload`); the end of the reload sets the flag again.
- A section other than a server, opened inside a network, is silently ignored, and a file may end
  inside its database section (`ConfigFile.ConfigFile.Read`).

Assumptions: the operating system does not hand out a process id that still belongs to an unreaped
child; time does not go backwards; packets are valid JSON; buffers stay below 2^31 bytes; a
successful write takes at least one byte; every response and event is a JSON object, hence starts
with `{` (section 4 of RFC 8259).

## Model

| member | source | states |
|---|---|---|
| Backoff.WaitIsDefinedUpTo29 | src/pluginmonitor.cpp:414-420 | the 32-bit computation of the wait is defined for exactly 0 to 29 failures |
| Backoff.WaitIsExact | src/pluginmonitor.cpp:414-420 | in that range the wait is min(300, 5·2^(n-1)), and 0 without failures |
| Backoff.WaitIsMonotone | src/pluginmonitor.cpp:414-420 | more failures never shorten the wait, which stays within 0 and 300 |
| Supervisor.InvHolds | src/pluginmonitor.cpp:342-440 | every run of the supervisor, in every interleaving with exits, signals and reloads, keeps the three invariants (processes, wake-up, pace) |
| Supervisor.ProcessStep | src/pluginmonitor.cpp:366-388 | every single step keeps: unreaped children are exactly the processes of the records, pids are distinct |
| Supervisor.WakeStep | src/pluginmonitor.cpp:398-436 | every single step keeps what ties the flag and the pending signal to unreaped children and plugins that are down |
| Supervisor.PaceStep | src/pluginmonitor.cpp:389-430 | every single step keeps the spacing of each plugin's start attempts |
| Supervisor.StartKeepsPace | src/pluginmonitor.cpp:389-430 | one more attempt, made when the wait is over, keeps the history of attempts paced: every reset to one failure pays for the short waits after it |
| Supervisor.ReapFindsRecord | src/pluginmonitor.cpp:366-376 | a child that wait4 reports always has a record, so the branch for pids that are not ours is never taken |
| StartTurns.ReapIsCounted | src/pluginmonitor.cpp:388-395 | a child that is reaped changes exactly its own record: no process, and one failure more, or the first again if the last attempt is more than 3600 seconds ago |
| Supervisor.ReconfigureKeepsProcesses | src/pluginmonitor.cpp:74-133 | a reload changes no record's process, key, network or time of its last attempt |
| SupervisorSafety.NoLostWakeup | src/pluginmonitor.cpp:342-440 | whenever runOnce is not executing, the flag is 0 and no SIGCHLD is pending, there is no unreaped child, and outside a reload every autostart plugin has a live process |
| SupervisorSafety.AtRestInReload | src/pluginmonitor.cpp:123-137 | in the middle of a reload, whenever runOnce is not executing, the flag is 0 and no SIGCHLD is pending, there is no unreaped child, and every autostart plugin has a live process if and only if a pass got to its last assignment since the reload began or every autostart record the reload left had a process |
| SupervisorSafety.ReloadInProgressCanBeDown | src/pluginmonitor.cpp:135-137 | that condition can fail: a concrete run in which, in the middle of a reload, an autostart plugin is down although nothing will wake the supervisor |
| SupervisorSafety.OneProcessPerPlugin | src/pluginmonitor.cpp:203-205 | in every reachable state non-zero pids are distinct, the children are exactly the processes of records, and a plugin about to be started has none |
| SupervisorSafety.RestartRate | src/pluginmonitor.cpp:389-430 | between reloads any window of T seconds holds at most 1 + (T + 1485) / 300 start attempts of one plugin |
| SupervisorSafety.OverflowTakesTwoHours | src/pluginmonitor.cpp:414-420 | no record has 30 failures, and the wait is never undefined, earlier than 7215 seconds after the first start attempt (less what its first failure count already stood for) |
| StartTurns.PassStartsDue | src/pluginmonitor.cpp:398-436 | in every completed pass each record has its turn, and an attempt is made in it if and only if the plugin is to run, has no process, has at most 29 failures and its last attempt plus the wait is not after that moment; the attempt changes that record only; a plugin that is down and gets none has a later due time; afterwards the flag is set if and only if some plugin that is to run has no process |
| StartTurns.LoopStartsDue | src/pluginmonitor.cpp:398-433 | the same turns for the start loop alone |
| SupervisorSafety.SettingsBetweenReloads | src/pluginmonitor.cpp:342-440 | without a reload, runs keep every record's key, configuration, network and autostart flag |
| SupervisorSafety.EntriesAreConfigured | src/pluginmonitor.cpp:77-121 | the names the reload loops visit are exactly the global plugins and name!network for each configured network |
| SupervisorSafety.ReloadIsExact | src/pluginmonitor.cpp:74-138 | after a reload without duplicate names the autostart records are exactly the configured ones, whatever was there before; each global plugin, and each plugin and network for the others, has its record with its configuration and no failures, a new one with that network and an old one with the one it had; a record that is not configured only loses its flag; all processes stay with their records |
| Monitor.PluginMonitor.SigChild | src/pluginmonitor.h:46-46 | the signal handler sets the flag |
| Monitor.PluginMonitor.RunOnce | src/pluginmonitor.cpp:342-440 | one call, with signals and exits anywhere in it, takes the object from one reachable state to another by a run of supervisor steps; a full pass starts exactly the plugins that are due in their turn, and leaves the flag set if and only if a plugin that is to run has no process |
| Monitor.PluginMonitor.ReapExited | src/pluginmonitor.cpp:353-396 | the wait4 loop ends with no unreaped child, by reap steps |
| Monitor.PluginMonitor.RecordExit | src/pluginmonitor.cpp:388-395 | clears the process, and counts one failure, starting from zero if the last start is over an hour ago |
| Monitor.PluginMonitor.StartDue | src/pluginmonitor.cpp:398-433 | the start loop considers every record once, makes an attempt for exactly those that are due, and reports whether one still waits |
| Monitor.PluginMonitor.DecideOn | src/pluginmonitor.cpp:404-427 | an attempt exactly for a plugin that is to run, has no process and whose wait is over; nothing for one that may not run or has a process |
| Monitor.PluginMonitor.StartPlugin | src/pluginmonitor.cpp:203-314 | the last event is the launch at that moment, with the process the record then has; the answer is whether there is one |
| Monitor.PluginMonitor.AtRest | src/pluginmonitor.cpp:342-440 | an object at rest has nothing left to do: no unreaped child, every autostart plugin runs |
| Monitor.PluginMonitor.AtRestInReload | src/pluginmonitor.cpp:123-137 | the same condition for an object in the middle of a reload |
| Monitor.PluginMonitor.KillRound | src/pluginmonitor.cpp:149-160 | a round happens exactly if one of the plugins runs, and is a pause followed by one call of runOnce |
| Monitor.PluginMonitor.KillPlugins | src/pluginmonitor.cpp:147-180 | a first round if any of the plugins runs, a second one exactly if any still runs after the first, nothing otherwise; the object stays valid |
| Monitor.PluginMonitor.UpsertConfigured | src/pluginmonitor.cpp:77-121 | the nested loops add or refresh exactly the configured records, in order, each with its configuration and network |
| Monitor.PluginMonitor.RetireMissing | src/pluginmonitor.cpp:124-133 | exactly the active records that were not seen lose their autostart flag and are collected |
| Monitor.PluginMonitor.ConfigReloaded | src/pluginmonitor.cpp:74-138 | a reload from a reachable state ends in a reachable one in which the autostart records are exactly the configured ones, with their configurations and networks |
| Parameters.Tokenise | src/pluginmonitor.cpp:228-279 | the loop computes the arguments of the scan |
| WrittenParameters.WrittenIsRead | src/pluginmonitor.cpp:228-279 | for all values: from runs of characters, `%s` and `%n`, ended by any of the six kinds of white space or going on in quotes, the arguments read are exactly what the parts stand for; a quoted part ends its argument and is always kept, others only if some text came out |
| WrittenParameters.EveryTextIsWritten | src/pluginmonitor.cpp:228-279 | every option is written in such parts, an unclosed quote at its end included |
| Parameters.DirectIsExpandAndKeep | src/pluginmonitor.cpp:228-279 | for all inputs, substituting while tokenising equals tokenising first and substituting afterwards, less unquoted arguments that came out empty |
| Parameters.DirectIsExpandExactly | src/pluginmonitor.cpp:255-279 | nothing is lost if and only if no unquoted argument vanishes |
| Parameters.SubstitutionNeverSplits | src/pluginmonitor.cpp:261-272 | with non-empty values the arguments are the expanded templates, whatever spaces or quotes the values contain |
| Parameters.QuotingRoundTrip | src/pluginmonitor.cpp:239-254 | arguments quoted with a mark they lack are read back, empty ones included |
| Parameters.ExpressibleExactly | src/pluginmonitor.cpp:228-279 | with plain values, a list of arguments can be written at all if and only if none contains both kinds of quote |
| Parameters.OrdinaryTextIsVerbatim | src/pluginmonitor.cpp:272-275 | text without quotes, white space and placeholders is one argument as it stands |
| DocumentedParameters.DocumentedExactly | src/pluginmonitor.cpp:228-279 | the option means what is documented, for all values, if and only if it has no backslash, no unquoted `%%` is read in it, and no `%%`, `%s` or `%n` is read inside quotes |
| DocumentedParameters.DocumentedFor | src/pluginmonitor.cpp:228-279 | the same condition decides it for any single pair of values without backslashes and percent signs, the empty network of global plugins included; only a socket called `s` or a network called `n` can hide a doubled percent sign |
| DocumentedParameters.NotAsDocumented | src/pluginmonitor.cpp:239-275 | it is not met by `%%`, `\%` and `"%s"` |
| DocumentedParameters.CodeKeepsBackslashes | src/pluginmonitor.cpp:232-238 | no backslash is ever dropped, since the escape flag is never set |
| DocumentedParameters.CodeKeepsPercents | src/pluginmonitor.cpp:239-275 | without backslashes in the option, and percent signs in the values, no fewer percent signs come out than documented |
| DocumentedParameters.SameIsUndisputed | src/pluginmonitor.cpp:239-275 | with such values, if the code makes the documented text of an option without backslashes, then it nowhere reads a percent sign otherwise than documented |
| CommandLine.Tokenise | src/plugincomm.cpp:481-514 | the loop computes the words and the text kept after the first separating space |
| CommandWords.WrittenIsRead | src/plugincomm.cpp:489-514 | words made of bare characters, characters after a backslash and quoted stretches, with any number of spaces between and around them, are read as exactly the characters they are made of; a word is kept if and only if it has some or has quotes |
| CommandWords.KeptTextIsRest | src/plugincomm.cpp:490-506 | the text kept of such a line is what follows its first separating space |
| CommandWords.EveryLineIsWritten | src/plugincomm.cpp:481-514 | every line is written so, with an open quote or a last backslash at its end at most |
| CommandLine.SuffixLaw | src/plugincomm.cpp:481-519 | for a payload that yields a command, the kept text splits into exactly its arguments if and only if the payload does not start with a space |
| CommandLine.RemainderIsSuffix | src/plugincomm.cpp:490-506 | the kept text is the suffix after one unquoted, unescaped space |
| CommandLine.QuotingRoundTrip | src/plugincomm.cpp:489-514 | any list of words, quoted and escaped, is read back, empty words included |
| CommandLine.FullArgsOfRendered | src/plugincomm.cpp:490-514 | the text kept of a rendered command line is the rendering of its arguments |
| Framing.ScanHeader | src/plugincomm.cpp:326-339 | the header loop finds the first brace and the number made of the digits before it, or fails the assertion |
| Framing.HeaderIsStable | src/plugincomm.cpp:325-343 | what is known of a header is not changed by later bytes |
| Framing.HeaderIsRead | src/plugincomm.cpp:325-347 | the size is the number that all digits before the first brace make, whatever stands between them and with any number of zeros in front; no digit at all or a number above 2147483647 ends the process, zero leaves everything, any other number is the size of the first packet, brace included |
| Framing.DecodeResumes | src/plugincomm.cpp:322-368 | decoding a longer buffer continues where decoding the shorter one stopped |
| Framing.ChunkIndependence | src/plugincomm.cpp:298-368 | any split of the byte stream gives the same packets, the same waiting size and buffer, and the same abort |
| Framing.DecodeEndsQuiescent | src/plugincomm.cpp:322-368 | when the loop ends no complete packet is left in the buffer |
| Framing.StuckForever | src/plugincomm.cpp:340-344 | after a size of zero nothing is decoded any more and the buffer only grows |
| Framing.StuckExactly | src/plugincomm.cpp:322-368 | between two reads that is the only way to get stuck: in any other state some bytes lead to another packet or to the failed assertion |
| Framing.FramingRoundTrip | src/plugincomm.cpp:325-362 | messages framed by decimal lengths, with anything but digits and braces between the frames, are decoded to exactly those messages |
| Framing.FramesAreAStream | src/plugincomm.cpp:357-362 | what the bot writes is such a stream |
| Framing.ReaderGetsPrefix | src/plugincomm.cpp:357-383 | whoever has received part of what the bot wrote decodes a prefix of the messages |
| Link.StepKeepsInv | src/plugincomm.cpp:320-384 | every arrival, dispatch and short write keeps the connection tied to its history |
| Link.RunSays | src/plugincomm.cpp:344-384 | the messages of a run are, in this order, the answers as received bytes make them due and the events as they are dispatched |
| Link.ResponseReports | src/plugincomm.cpp:349-357 | an answer is what handle filled in; after an exception it is what was filled in by then with success false and the exception's text as error, and no other field |
| Link.WriteStream | src/plugincomm.cpp:344-384 | over any run, accepted bytes followed by the write buffer are one frame for each of those messages; the k-th answer reports on the k-th request received, exceptions as above; the events are those dispatched, in order |
| Link.RunDispatches | src/plugincomm.h:131-153 | every dispatched event is sent once, in order |
| Link.PluginReadsMessages | src/plugincomm.cpp:344-384 | a plugin decoding what it has been sent sees a prefix of the bot's messages, and all of them when the write buffer is empty |
| PluginSocket.SocketInfo.IsSubscribedToCommand | src/plugincomm.h:98-116 | whether some subscription to the command admits network, receiver and identified sender |
| PluginSocket.SocketInfo.CommandMightNeedWhois | src/plugincomm.h:117-127 | whether some subscription to the command names a sender |
| PluginSocket.SocketInfo.SubscribeToCommand | src/plugincomm.h:128-130 | adds the subscription to those there are |
| PluginSocket.SocketInfo.Dispatch | src/plugincomm.h:131-153 | appends one frame with the event, and nothing else |
| PluginSocket.SocketInfo.ParsePackets | src/plugincomm.cpp:322-368 | takes every complete packet, adds exactly one report on each and in order, stops the process exactly on an unreadable header, and terminates |
| PluginSocket.SocketInfo.ReadAll | src/plugincomm.cpp:299-319 | appends exactly the bytes that were there |
| PluginSocket.SocketInfo.WriteAll | src/plugincomm.cpp:371-384 | removes from the write buffer exactly what was accepted |
| PluginSocket.SocketInfo.Poll | src/plugincomm.cpp:279-385 | one round is the arrival of some bytes followed by one accepted prefix of the write buffer, adds one report for each request those bytes complete, and keeps the connection in a state some run leads to |
| PluginSocket.SocketInfo.WholeStream | src/plugincomm.cpp:344-384 | so at any time all the bytes the object sent and buffers are the frames of its messages, whose k-th answer reports on the k-th request it received |
| CommandQueue.DeliveryIsAsPromised | src/plugincomm.cpp:414-459 | a released command goes to exactly the sockets the promise allows: a sender-restricted subscription only for its own sender, known as identified on the command's network or just confirmed under that very nick |
| CommandQueue.SenderGating | src/plugincomm.cpp:403-465 | the same for every command a flush releases |
| CommandQueue.NonInterference | src/plugincomm.cpp:403-465 | whether the WHOIS reply was positive changes nothing but where commands of that nick go |
| CommandQueue.KeptAreWaiting | src/plugincomm.cpp:414-437 | a flush keeps exactly the commands whose sender nobody vouches for and is not the flushed nick, while a socket subscribed to the command for particular senders; those have had a WHOIS sent |
| CommandQueue.FlushOneKey | src/plugincomm.cpp:403-465 | a flush keeps all commands of a key in order, or releases all of them in order |
| CommandQueue.FlushKeepsCount | src/plugincomm.cpp:461-463 | a flush loses no command and duplicates none |
| CommandQueue.FlushAsksOnce | src/plugincomm.cpp:428-434 | a flush sends exactly one WHOIS for each command it keeps that had none, and no other |
| CommandQueue.OrderPerKey | src/plugincomm.cpp:403-465 | over any run, per network, origin and command name, what was released followed by what is queued is what arrived, in order |
| CommandQueue.DeliveredOnceWhoisOnce | src/plugincomm.cpp:403-465 | over any run every arrival is queued or was released, exactly once; a queued one has been asked about exactly once, a released one exactly if it was ever held, and then once |
| CommandQueue.RunIsSafe | src/plugincomm.cpp:403-465 | over any run every release went exactly to the sockets the promise of that moment allows |
| PluginComm.PluginComm.NeedsWhois | src/plugincomm.cpp:416-423 | whether a WHOIS is required for a command |
| PluginComm.PluginComm.AskOnce | src/plugincomm.cpp:428-433 | sends a WHOIS unless one was sent, and notes it |
| PluginComm.PluginComm.Deliver | src/plugincomm.cpp:439-459 | exactly one COMMAND event to each socket the release is for, with network name, sender, receiver, command, argument text and arguments in this order, nothing to any other |
| PluginComm.PluginComm.FlushTurn | src/plugincomm.cpp:405-464 | one turn keeps the command and moves on, or removes it and stays |
| PluginComm.PluginComm.FlushCommandQueue | src/plugincomm.cpp:403-465 | the loop that removes while it walks leaves queue, WHOIS requests and every connection as one flush does, and each connection hears exactly of the releases that are for it |
| PluginComm.PluginComm.MessageReceived | src/plugincomm.cpp:479-526 | a payload that yields a command extends the run by its arrival and is flushed: the command made of origin, receiver, words and trimmed rest waits and is asked about, or goes at once to exactly the sockets it is for, each of which hears of it; any other payload changes nothing |
| PluginComm.PluginComm.WhoisResult | src/plugincomm.cpp:618-622 | a WHOIS reply extends the run and flushes with that nick |
| PluginComm.PluginComm.Connect | src/plugincomm.cpp:264-273 | a new socket starts with empty buffers and a number of its own, and its plugin is told of releases from then on |
| PluginComm.PluginComm.Poll | src/plugincomm.cpp:276-391 | every socket has one round, exactly those that were closed in it are removed, and neither the queue nor what any plugin was told is touched |
| PluginComm.ServedTold | src/plugincomm.cpp:453-459 | a flush sends every plugin exactly one COMMAND event for each release that is for it, in order, whatever it was sent before |
| PluginComm.ServedIsHeard | src/plugincomm.cpp:439-459 | releases add to the events of every connection exactly one COMMAND event for each release that is for it, in order, and that event names network, sender, receiver, command, argument text and arguments |
| PluginComm.PluginComm.QueueLaws | src/plugincomm.cpp:403-465 | so an object at any time obeys order, conservation, WHOIS and delivery laws of its run, and the COMMAND events of each connection are those of the releases that were for it since it connected, one each and in order |
| PropertyStore.QueryIsChain | src/db/sqlite.cpp:82-90 | the sorted, limited query finds a row if and only if one of the eight scopes of the chain has a value, and then the first of them |
| PropertyStore.HierarchicalIsDocumented | src/db/sqlite.cpp:82-90 | on tables in which no row of the key skips a level this is the fallback sender, receiver, network, global |
| PropertyStore.DocumentedExactly | src/db/sqlite.cpp:82-90 | every query is answered from the documented scope if and only if no row of the key skips a level |
| PropertyStore.PlayIsLastWrite | src/db/sqlite.cpp:244-266 | after any history a row holds what it was last set to, and is gone if that was the empty string |
| PropertyStore.LookupFromHistory | src/db/sqlite.cpp:217-266 | after any history from an empty table, a query answers what the first scope of the chain with a non-empty last write was set to, and nothing if there is none |
| PropertyStore.WriteIsLocal | src/db/sqlite.cpp:244-266 | a write changes no query for another key or from outside its scope |
| PropertyStore.SetIsFound | src/db/sqlite.cpp:92-102 | a value that is set is what a query within its scope finds if and only if every other enclosing row is further away; otherwise the query finds what it found before |
| PropertyStore.UnsetReveals | src/db/sqlite.cpp:92-96 | removing a row changes no answer that did not come from it, and otherwise reveals the closest of the remaining rows |
| PropertyStore.ListedIsStoredThere | src/db/sqlite.cpp:104-108 | a key is listed at a scope if and only if a query at that scope is answered at that scope, and then with the value stored there |
| PropertyStore.ListedAsDocumentedExactly | src/db/sqlite.cpp:104-108 | what is listed for a namespace are the names in it, as documented, if and only if no namespace is given or nothing is listed |
| PropertyStore.SQLiteDatabase.Property | src/db/sqlite.cpp:217-242 | returns the value of the first hit in the chain, or the empty string |
| PropertyStore.SQLiteDatabase.SetProperty | src/db/sqlite.cpp:244-266 | inserts, replaces or removes exactly one row |
| PropertyStore.SQLiteDatabase.PropertyKeys | src/db/sqlite.cpp:268-299 | lists each key with the prefix at exactly the scope once, and each one's property at that scope is the value stored there |
| NetworkReload.ReloadIsExact | src/dazeus.cpp:150-186 | a reload ends with exactly the configured networks, each with the last configuration of its name, the old ones as connected as before, new ones told to connect if the first configuration of the name says so |
| NetworkReload.ReloadAgain | src/dazeus.cpp:150-186 | reloading the same configuration changes nothing |
| NetworkReload.DaZeus.AddConfigured | src/dazeus.cpp:150-166 | the first loop adds what is missing and keeps the objects that were there |
| NetworkReload.DaZeus.RemoveGone | src/dazeus.cpp:168-186 | the loop that erases while it walks removes and disconnects exactly the networks that are not configured |
| NetworkReload.DaZeus.LoadNetworks | src/dazeus.cpp:150-186 | both loops: exactly the configured names, survivors being the same objects |
| ConfigParse.PrintedIsParsed | src/config.cpp:148-404 | the events of any well-formed document are accepted and read as that document |
| ConfigParse.ParsedIsPrinted | src/config.cpp:148-404 | accepted events are those of a well-formed document |
| ConfigParse.ReadExactly | src/config.cpp:148-404 | events are read as a document if and only if it is well formed and these are its events |
| ConfigParse.NoContinuation | src/config.cpp:148-404 | a callback has nothing to go on with if and only if no well-formed document begins with the events so far and this one |
| ConfigReader.ConfigReaderState.ProgressMatchesSection | src/config.cpp:148-205 | at any time without an error, each record in progress is present exactly as the current section requires, the database from its section on |
| ConfigReader.ConfigReaderState.SectOpen | src/config.cpp:148-205 | keeps the reader at the meaning of a document, reporting an error exactly if the section cannot be opened there |
| ConfigReader.ConfigReaderState.SectClose | src/config.cpp:207-265 | the same for the end of a section: the record in progress joins the finished ones |
| ConfigReader.ConfigReaderState.SetOption | src/config.cpp:266-404 | the same for an option |
| ConfigReader.ConfigReaderState.OpenInNetwork | src/config.cpp:190-199 | inside a network only a server opens, anything else is ignored without an error |
| ConfigReader.ConfigReaderState.SocketOption | src/config.cpp:290-309 | the port must fit 16 bits, unknown names are errors, the last value of a name counts |
| ConfigReader.ConfigReaderState.DatabaseOption | src/config.cpp:310-334 | the port is cut to 16 bits, the last value of a name counts |
| ConfigReader.ConfigReaderState.PluginOption | src/config.cpp:374-399 | a plugin once given the network scope keeps it; a variable has exactly two parameters, and the last of a name counts |
| ConfigFile.ConfigFile.Read | src/config.cpp:92-129 | succeeds exactly on the events of a well-formed, finished document with a database, and yields its meaning; otherwise the configuration stays as it was, marked as not read |
| ConfigFile.NetworkInherits | src/config.cpp:170-179 | a network's nickname, username and full name are its own last settings, or else the global ones standing before it, whatever follows |
| ConfigFields.NetworkFields | src/config.cpp:334-352 | every field of a network is its last setting of that name, or what the record started with |
| ConfigFields.GlobalFields | src/config.h:19-32 | the same for the global settings, with their documented defaults |
| ConfigFields.DatabaseFields | src/config.cpp:310-334 | the same for the database, the port cut to 16 bits |
| ConfigFields.ServerFields | src/config.cpp:353-371 | the same for a server |
| ConfigFields.PluginFields | src/config.cpp:374-399 | the same for a plugin; its scope is the network if it ever was given that, and each variable has its last value |
| ConfigRoundTrip.ConfigurationRoundTrip | src/config.cpp:92-404 | every configuration with trimmed values has a well-formed document that means it, and whose events are read as that document |

## Left out

- Sockets, `select`, `accept` and connection setup: only arriving bytes and accepted prefixes remain.
- JSON parsing and printing and the dispatch in `handle`: a parameter, which gives for each connection and number of earlier requests the answer to a request.
- `fork`, `exec`, `stat`, `kill` and signals: nondeterministic outcomes; the pauses in `kill_plugins` promise nothing about time.
- `wait4` errors other than "no children", and children that are stopped rather than ended.
- The exception `getPluginSocket` throws without a socket, and the assertion on an unknown socket type.
- The two duplicate-name exceptions in `configReloaded`: a reload is modelled for distinct names, and for networks with a name, as the code asserts.
- The order in which `std::map` and `std::multimap` are walked: records, sockets and subscriptions are visited in insertion order or any order.
- Supervisor.InvHolds: says nothing of what follows once the 32-bit wait has overflowed.
- SupervisorSafety.NoLostWakeup: its second half speaks of the time outside reloads; `AtRestInReload` has the exact condition inside one.
- Plain events (PRIVMSG, WHOIS, JOIN and the others) that are dispatched beside commands, and subscribing to them.
- PluginComm.PluginComm.MessageReceived: starts after the bot's nick or the highlight was recognised and the rest trimmed; trimming is a parameter.
- A WHOIS reply is matched by nick only, whatever its network, as in the code.
- The lifetime of networks and subscriptions: commands and subscriptions know networks by number.
- PluginSocket.SocketInfo.Poll: `handle` does not dispatch an event to the socket being polled, whose record is written back afterwards.
- Commands are values in the queue with an arrival number instead of separately allocated objects.
- Property values and keys that contain a NUL byte, and the query errors of the database.
- The PostgreSQL and MongoDB back ends, permissions, schema upgrades and the start counter.
- The configuration file's lexical level: events come from the dotconf library, with section arguments up to and including the closing bracket.
- ConfigFile.ConfigFile.Read: reading stops at the first error; whether the parser would go on is left to the library, and the outcome is the same exception.
- The widths of a server's port and priority, and the initial values of network and server records, belong to the IRC library, which is not part of this model.
- Network objects: only configuration and whether they were told to connect.
- The main loop of `DaZeus::run`, command-line options and logging.
