# TRex command-line client, modelled in Dafny

A model of `CommandLineClient`, the Java command-line client of the TRex
event-processing server. It covers the logic of that one file:

- **Argument scanning** in `main`. The command line is
  `<host> <port> [-pub <type> [<key> <val>]...] [-sub <id>...] [-rule <path>]`,
  with the three options in any order, each any number of times.
  `ArgScanner.Scan` states what one run of the scanner produces. It covers
  every way the scan ends: the usage message with exit status -1, an uncaught
  `ArrayIndexOutOfBoundsException`, or a loop that never ends. `ArgScanner.ScanArgs`
  is the index-driven loop itself, proved to compute `Scan`.
- **Value typing** in `publish`. Each raw value becomes a bool, an int, a float
  or a string, in that order of precedence (`Attributes.Classify`).
  `Integer.parseInt` is modelled as its digit loop with the `int` overflow check
  (`IntParsing.ParseInt`). Its round-trip partner is `Integer.toString`
  (`IntParsing.IntText`).
- **Packet building and sending**. The client object is the class
  `CommandLine.CommandLineClient`. Every packet handed to the transport is
  appended to the ghost sequence `sent`, and every packet `notifyPktReceived`
  prints is appended to the ghost sequence `displayed`. `publish`, `subscribe`
  and `sendRule` are proved to send exactly the packets the functions
  `Packets.PubPacket`, `Packets.SubPackets` and the rule packet describe.
- **The session `main` runs**. `CommandLine.Run` is proved to send the
  subscriptions, then the rule, then one publication per published type. Each
  publication carries that type's key/value map, whatever order the `HashMap`
  yields.

Files:

- `Wrappers.dfy`: `Option`.
- `IntParsing.dfy`: `Integer.parseInt` and `Integer.toString`.
- `Attributes.dfy`: attribute values and their typing.
- `Sequences.dfy`: facts about duplicate-free sequences.
- `Packets.dfy`: the packets and the display filter.
- `ArgScanner.dfy`: the scanner.
- `CommandLine.dfy`: the client class and `main`.

## Model

| member | source | states |
|---|---|---|
| IntParsing.ParseInt | TRex-Java-client/src/polimi/trex/examples/CommandLineClient.java:199 | every value parseInt accepts lies in the range of a Java `int` |
| IntParsing.Accumulate | TRex-Java-client/src/polimi/trex/examples/CommandLineClient.java:199 | the digit loop never yields a magnitude beyond its limit (2^31 after '-', 2^31 - 1 otherwise) |
| IntParsing.AccumulateDigits | TRex-Java-client/src/polimi/trex/examples/CommandLineClient.java:199 | the digit loop succeeds only when every remaining character is a decimal digit |
| IntParsing.AccumulateValue | TRex-Java-client/src/polimi/trex/examples/CommandLineClient.java:199 | on a digit string the loop yields the string's decimal value, and fails exactly when that value exceeds the limit |
| IntParsing.DigitsValuePrefix | TRex-Java-client/src/polimi/trex/examples/CommandLineClient.java:199 | reading more digits never lowers the value, so an overflow seen mid-string is final |
| IntParsing.ParseIntShape | TRex-Java-client/src/polimi/trex/examples/CommandLineClient.java:199 | an accepted string is a digit, or a sign with at least one digit after it, followed by digits, so a lone '+' or '-' is rejected; a plain digit string is accepted exactly when its value is at most Integer.MAX_VALUE, and then denotes that value |
| IntParsing.ParseIntNegative | TRex-Java-client/src/polimi/trex/examples/CommandLineClient.java:199 | '-' followed by digits is accepted exactly when the magnitude is at most 2^31, and denotes the negated value |
| IntParsing.ParseIntPlus | TRex-Java-client/src/polimi/trex/examples/CommandLineClient.java:199 | '+' followed by digits reads exactly as the digits alone: accepted up to Integer.MAX_VALUE, with their value |
| IntParsing.NatText | TRex-Java-client/src/polimi/trex/examples/CommandLineClient.java:231 | Integer.toString of a non-negative value is a non-empty digit string that starts with '0' exactly when the value is 0 |
| IntParsing.NatTextValue | TRex-Java-client/src/polimi/trex/examples/CommandLineClient.java:231 | the digits written for n denote n |
| IntParsing.IntText | TRex-Java-client/src/polimi/trex/examples/CommandLineClient.java:231 | the text of an `int` is its digits, preceded by '-' exactly when it is negative |
| IntParsing.IntTextRoundTrip | TRex-Java-client/src/polimi/trex/examples/CommandLineClient.java:199-200 | parseInt reads back every `int` that toString writes |
| IntParsing.DecimalPointRejected | TRex-Java-client/src/polimi/trex/examples/CommandLineClient.java:199-201 | a string containing '.' makes parseInt throw |
| IntParsing.ThreeBillionRejected | TRex-Java-client/src/polimi/trex/examples/CommandLineClient.java:199-201 | "3000000000" overflows and makes parseInt throw |
| IntParsing.MaxPlusOneRejected | TRex-Java-client/src/polimi/trex/examples/CommandLineClient.java:199-201 | "2147483648", one past Integer.MAX_VALUE, makes parseInt throw |
| IntParsing.MinValueAccepted | TRex-Java-client/src/polimi/trex/examples/CommandLineClient.java:199 | "-2147483648" is accepted as Integer.MIN_VALUE |
| Attributes.Classify | TRex-Java-client/src/polimi/trex/examples/CommandLineClient.java:190-209 | for each type, if and only if: exactly "true"/"false" are bools; otherwise a value parseInt accepts is an int of the parsed value; otherwise a value parseFloat accepts is a float; otherwise it is the string itself |
| Attributes.Render | TRex-Java-client/src/polimi/trex/examples/CommandLineClient.java:230-233 | a printed boolean is "true" exactly when it is true and "false" exactly when false, a printed `int` parses back to itself, and a string prints as itself |
| Attributes.ClassifyRender | TRex-Java-client/src/polimi/trex/examples/CommandLineClient.java:190-209 | typing the printed form of a bool, an `int`, or a string that is neither a literal nor a number gives back that value |
| Attributes.DecimalNeverInt | TRex-Java-client/src/polimi/trex/examples/CommandLineClient.java:198-204 | a value with a decimal point is never an int, and is a float whenever parseFloat accepts it |
| Attributes.OutOfRangeNeverInt | TRex-Java-client/src/polimi/trex/examples/CommandLineClient.java:198-206 | every digit string beyond the `int` range, unsigned, after '+' (above 2^31 - 1) or after '-' (above 2^31), is never an int and so falls through to float or string |
| Attributes.ThreeBillionNeverInt | TRex-Java-client/src/polimi/trex/examples/CommandLineClient.java:198-206 | "3000000000" is never an int |
| Attributes.BoolLiteralsCaseSensitive | TRex-Java-client/src/polimi/trex/examples/CommandLineClient.java:191-196 | "True" and "TRUE" are not booleans but strings |
| Attributes.ExampleValues | TRex-Java-client/src/polimi/trex/examples/CommandLineClient.java:190-209 | in the documented command "toto" becomes a string and "50" an int; the further example "42" becomes an int too |
| Packets.Displayed | TRex-Java-client/src/polimi/trex/examples/CommandLineClient.java:219-223 | the packets shown are exactly the publication packets among those received |
| Packets.DisplayedConcat | TRex-Java-client/src/polimi/trex/examples/CommandLineClient.java:219-223 | showing a stream in two parts shows the first part's packets then the second's, so arrival order is kept |
| Packets.DisplayedKeepsOrder | TRex-Java-client/src/polimi/trex/examples/CommandLineClient.java:219-223 | two publications arriving around another packet are shown in arrival order, and the other packet is dropped |
| Packets.Names | TRex-Java-client/src/polimi/trex/examples/CommandLineClient.java:193 | the helper through which `PubPacket` states that each attribute is named after its key: the k-th name is the name of the k-th attribute, one per attribute |
| Packets.PubPacket | TRex-Java-client/src/polimi/trex/examples/CommandLineClient.java:189-210 | the packet has the given type, its attribute names are the keys in order, and each attribute is typed from the value at the same position |
| Packets.SubPackets | TRex-Java-client/src/polimi/trex/examples/CommandLineClient.java:172-181 | one subscription packet per id, the k-th for the k-th id |
| Packets.PubPacketFromMap | TRex-Java-client/src/polimi/trex/examples/CommandLineClient.java:142-143 | publishing a map's aligned key and value lists gives a packet of that type with one attribute per map entry, each typed from its own value, every key present once |
| Packets.PublishExample | TRex-Java-client/src/polimi/trex/examples/CommandLineClient.java:189-210 | the documented publication builds type 2001 with area = string "toto" and value = int 50, in key order |
| Sequences.DistinctCard | TRex-Java-client/src/polimi/trex/examples/CommandLineClient.java:142-143 | a duplicate-free key list has as many distinct keys as entries |
| Sequences.DistinctCovers | TRex-Java-client/src/polimi/trex/examples/CommandLineClient.java:142-143 | a duplicate-free list drawn from a set and as long as the set contains every member of the set |
| ArgScanner.IdsBetween | TRex-Java-client/src/polimi/trex/examples/CommandLineClient.java:119-121 | one id per consumed token, each the value parseInt gives that token |
| ArgScanner.PubPart | TRex-Java-client/src/polimi/trex/examples/CommandLineClient.java:108-116 | the "-pub" test: a "-pub" token stops the scan or moves past its type; any other token changes nothing; a stop is the usage exit or out of bounds at the end; an advance changes only the published types' maps |
| ArgScanner.SubPart | TRex-Java-client/src/polimi/trex/examples/CommandLineClient.java:117-122 | the "-sub" test: at "-sub" the scan stops or advances; a stop is the usage exit; an advance changes only the subscription ids |
| ArgScanner.RulePart | TRex-Java-client/src/polimi/trex/examples/CommandLineClient.java:123-128 | the "-rule" test: at "-rule" the scan either goes out of bounds at the end or moves two tokens on with the rule to be sent from the following path; an advance changes only the rule flag and path |
| ArgScanner.PubPairs | TRex-Java-client/src/polimi/trex/examples/CommandLineClient.java:112-115 | the pair loop stops within the arguments, or fails at the index one past the end |
| ArgScanner.PubPairsStops | TRex-Java-client/src/polimi/trex/examples/CommandLineClient.java:112-115 | the pair loop consumes whole pairs and stops at the first key position starting with '-' or at the end; it fails at the end exactly when a key has no value |
| ArgScanner.PubPairsKeys | TRex-Java-client/src/polimi/trex/examples/CommandLineClient.java:112-115 | the map's keys are the earlier keys plus every key token consumed |
| ArgScanner.PubPairsLastWins | TRex-Java-client/src/polimi/trex/examples/CommandLineClient.java:113 | a repeated key holds the value of its last pair |
| ArgScanner.PubPairsKeeps | TRex-Java-client/src/polimi/trex/examples/CommandLineClient.java:113 | a key that no later pair mentions keeps its value |
| ArgScanner.SubIds | TRex-Java-client/src/polimi/trex/examples/CommandLineClient.java:119-121 | the id loop stops within the arguments |
| ArgScanner.SubIdsCollects | TRex-Java-client/src/polimi/trex/examples/CommandLineClient.java:119-121 | the id loop stops at the first token starting with '-' or at the end, all ids before parsed; or at the first token parseInt rejects |
| ArgScanner.SubIdsAppends | TRex-Java-client/src/polimi/trex/examples/CommandLineClient.java:119-121 | a completed id loop appends exactly the ids of the tokens it consumed, in order |
| ArgScanner.PubBlock | TRex-Java-client/src/polimi/trex/examples/CommandLineClient.java:109-115 | "-pub" moves past its type, or ends in the usage exit (bad type) or an index out of bounds at the end of the arguments |
| ArgScanner.SubBlock | TRex-Java-client/src/polimi/trex/examples/CommandLineClient.java:118-121 | "-sub" moves forward or ends in the usage exit |
| ArgScanner.RuleBlock | TRex-Java-client/src/polimi/trex/examples/CommandLineClient.java:124-127 | "-rule" consumes exactly its path, or ends in an index out of bounds at the end of the arguments |
| ArgScanner.Iteration | TRex-Java-client/src/polimi/trex/examples/CommandLineClient.java:106-129 | an iteration at "-pub", "-sub" or "-rule" stops or advances; at any other token it changes neither the index nor the configuration; it can stop only with the usage exit or an index out of bounds at the end |
| ArgScanner.Scan | TRex-Java-client/src/polimi/trex/examples/CommandLineClient.java:100-129 | fewer than two arguments give the usage exit; a scan goes out of bounds only at the end of the arguments and diverges only at a non-flag token after the port |
| ArgScanner.ScanFrom | TRex-Java-client/src/polimi/trex/examples/CommandLineClient.java:106-129 | the loop diverges only at a token that is not a flag, and goes out of bounds only at the end of the arguments |
| ArgScanner.ReadPub | TRex-Java-client/src/polimi/trex/examples/CommandLineClient.java:109-115 | the "-pub" code computes exactly PubBlock |
| ArgScanner.ReadSub | TRex-Java-client/src/polimi/trex/examples/CommandLineClient.java:118-121 | the "-sub" code computes exactly SubBlock |
| ArgScanner.ScanIteration | TRex-Java-client/src/polimi/trex/examples/CommandLineClient.java:108-128 | one pass of the loop body computes exactly Iteration |
| ArgScanner.ScanArgs | TRex-Java-client/src/polimi/trex/examples/CommandLineClient.java:100-133 | the scanning code computes exactly Scan |
| ArgScanner.TooFewArguments | TRex-Java-client/src/polimi/trex/examples/CommandLineClient.java:100-102 | fewer than two arguments give the usage exit |
| ArgScanner.BadPort | TRex-Java-client/src/polimi/trex/examples/CommandLineClient.java:105 | a port parseInt rejects gives the usage exit |
| ArgScanner.BadPubType | TRex-Java-client/src/polimi/trex/examples/CommandLineClient.java:110 | a "-pub" type parseInt rejects gives the usage exit; a "-pub" at the end goes out of bounds at the end |
| ArgScanner.OddPubPairs | TRex-Java-client/src/polimi/trex/examples/CommandLineClient.java:113 | a key without a value goes out of bounds at the end of the arguments |
| ArgScanner.BadSubId | TRex-Java-client/src/polimi/trex/examples/CommandLineClient.java:120 | a "-sub" token that parseInt rejects, before any token starting with '-', gives the usage exit when the "-sub" starts an iteration |
| ArgScanner.BadSubIdAfterPub | TRex-Java-client/src/polimi/trex/examples/CommandLineClient.java:117-122 | the same usage exit for a "-sub" reached right after a "-pub" block in the same iteration, as in `h 1 -pub 5 -sub x` |
| ArgScanner.PubPartEvolves | TRex-Java-client/src/polimi/trex/examples/CommandLineClient.java:108-116 | "-pub" keeps host, port and the id list unchanged, and adds only `int` types |
| ArgScanner.SubPartEvolves | TRex-Java-client/src/polimi/trex/examples/CommandLineClient.java:117-122 | "-sub" keeps host and port and only appends `int` ids |
| ArgScanner.IterationEvolves | TRex-Java-client/src/polimi/trex/examples/CommandLineClient.java:106-129 | an iteration keeps host and port, only appends ids, and keeps every number an `int` |
| ArgScanner.ScanFromEvolves | TRex-Java-client/src/polimi/trex/examples/CommandLineClient.java:106-129 | the same holds across the whole loop |
| ArgScanner.ScanInt32 | TRex-Java-client/src/polimi/trex/examples/CommandLineClient.java:104-129 | a parsed scan has args[0] as host and parseInt(args[1]) as port, and its port, ids and types are all `int` values |
| ArgScanner.PubReplaces | TRex-Java-client/src/polimi/trex/examples/CommandLineClient.java:111 | a second "-pub" of a type replaces the first: the type maps to exactly the keys it consumed, and other types are untouched |
| ArgScanner.UnknownTokenDiverges | TRex-Java-client/src/polimi/trex/examples/CommandLineClient.java:106-129 | an iteration starting at a token that is not a flag repeats forever |
| ArgScanner.PublishCommand | TRex-Java-client/src/polimi/trex/examples/CommandLineClient.java:104-116 | the documented publication command scans to type 2001 with area -> toto and value -> 50 |
| ArgScanner.SubscribeCommand | TRex-Java-client/src/polimi/trex/examples/CommandLineClient.java:117-122 | the documented subscription command scans to the id list [2100] |
| ArgScanner.RuleCommand | TRex-Java-client/src/polimi/trex/examples/CommandLineClient.java:123-128 | "-rule trex.rules" scans to sending the rule from that path |
| ArgScanner.ErrorCommands | TRex-Java-client/src/polimi/trex/examples/CommandLineClient.java:100-133 | six small commands end in out of bounds, the usage exit or divergence as the code dictates, including a bad "-sub" id right after a "-pub" block |
| CommandLine.CommandLineClient.constructor | TRex-Java-client/src/polimi/trex/examples/CommandLineClient.java:159-161 | a new client is bound to the host and port, not listening, nothing sent or shown |
| CommandLine.CommandLineClient.StartListening | TRex-Java-client/src/polimi/trex/examples/CommandLineClient.java:137-138 | the client listens; nothing is sent |
| CommandLine.CommandLineClient.SendRule | TRex-Java-client/src/polimi/trex/examples/CommandLineClient.java:163-170 | exactly one rule packet with identifier 2000 for the CPU engine is sent |
| CommandLine.CommandLineClient.Subscribe | TRex-Java-client/src/polimi/trex/examples/CommandLineClient.java:172-181 | exactly one subscription packet per id is sent, in list order |
| CommandLine.CommandLineClient.Publish | TRex-Java-client/src/polimi/trex/examples/CommandLineClient.java:183-216 | exactly one publication packet is sent, with one typed attribute per key, in key order |
| CommandLine.CommandLineClient.NotifyPktReceived | TRex-Java-client/src/polimi/trex/examples/CommandLineClient.java:219-238 | a received packet is shown exactly when it is a publication packet |
| CommandLine.Enumerate | TRex-Java-client/src/polimi/trex/examples/CommandLineClient.java:143 | the key and value lists list every entry of the map once, aligned |
| CommandLine.NextKey | TRex-Java-client/src/polimi/trex/examples/CommandLineClient.java:142 | the next key of the iteration is one not yet visited |
| CommandLine.PublishesEachCoversAll | TRex-Java-client/src/polimi/trex/examples/CommandLineClient.java:142-144 | when each type is published once, every published type has its packet |
| CommandLine.PublishedOneMore | TRex-Java-client/src/polimi/trex/examples/CommandLineClient.java:142-144 | publishing one more unvisited type extends the publications so far by that type |
| CommandLine.PublishedAll | TRex-Java-client/src/polimi/trex/examples/CommandLineClient.java:142-144 | once every type is visited, each type has been published exactly once |
| CommandLine.PublishType | TRex-Java-client/src/polimi/trex/examples/CommandLineClient.java:142-143 | one loop body sends one publication of that type carrying exactly the type's map |
| CommandLine.PublishAll | TRex-Java-client/src/polimi/trex/examples/CommandLineClient.java:142-144 | the loop sends one publication per type, no type twice, each carrying its map, in whatever order the map yields |
| CommandLine.Preamble | TRex-Java-client/src/polimi/trex/examples/CommandLineClient.java:136-141 | what a session sends before publishing: the subscription packets in order, then the rule packet exactly when a rule is asked for, and no publication |
| CommandLine.Run | TRex-Java-client/src/polimi/trex/examples/CommandLineClient.java:89-148 | each way the scan ends maps to its exit; a parsed command against a reachable server sends the subscriptions, then the rule if asked, then one publication per type, and listens exactly when there are subscriptions |

## Left out

- Network I/O through `TransportManager` (connect, send, start, receive) is not part of this model. A send is recorded by appending to `sent`. A failed connection is the parameter `reachable` of `Run`.
- `CommandLine.CommandLineClient.SendRule`, `Subscribe` and `Publish` record every packet as sent. The source catches an `IOException` from a send, prints it and drops that one packet; the model assumes every send succeeds.
- `TRexRuleParser.parse` is not part of this model. `readFile` is reduced to recording the rule file's path, and the rule packet carries that path as its source. An `IOException` from reading the file, which `main` lets escape, is not modelled.
- `Float.parseFloat` is abstracted to the predicate `parsesAsFloat`, and a float attribute carries no number. Floating point is out of scope.
- `IntParsing.ParseInt` accepts the ASCII digits '0'..'9' only. Java's `Character.digit` also accepts other Unicode decimal digits.
- Printing is mostly not modelled: the usage text, "Error at parameter" and stack traces are left out. Of the attribute printing in `notifyPktReceived`, only the value text of a bool, an int or a string is modelled (`Attributes.Render`); the ` <name : type = …>` layout, the float text and the date are not. `displayed` records which packets are shown, not the text printed for them.
- `notifyConnectionError` is not modelled. It runs on the receive thread and calls `System.exit(-1)`, which involves concurrency and the process.
- `ArgScanner.ScanArgs`: the source loops forever when an iteration starts at a token other than "-pub", "-sub" or "-rule". The model cannot loop forever, so it returns `Diverges(i)` at the first such iteration. `ArgScanner.Iteration` proves that the iteration leaves the index and the configuration unchanged, so the Java loop would repeat it forever. `Run` reports this as `Hang`.
- `CommandLine.CommandLineClient.Publish` requires at least as many values as keys. With fewer values, the source throws an uncaught `IndexOutOfBoundsException` partway through. `main` always passes the key set and values of one map, which have equal lengths. Extra values are ignored, as in the source.
- `main` catches the `IOException` from connecting, prints it and returns normally (`Run` then returns `Returned` with no client). The process exits with status -1 on a connection error only through `notifyConnectionError`, which is left out above.
- `publish` has no check that keys and values have equal length; see the `Publish` line above.
- `Integer.parseInt` accepts a leading '+' as well as a leading '-'; `IntParsing.ParseIntPlus` and `IntParsing.ParseIntNegative` state both.
