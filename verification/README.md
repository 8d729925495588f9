# asterisk-unimrcp in Dafny

A model of the sequential logic inside asterisk-unimrcp, the Asterisk modules
that drive the UniMRCP client library to talk MRCP (RFC 6787) to speech
servers, together with proofs about it. The modules are:

- the dialplan applications MRCPSynth, MRCPRecog, SynthAndRecog, MRCPVerif
  and MRCPRecogVerif of `app-unimrcp`;
- the code those applications share: the audio FIFO between the media and
  application threads, the speech channel and its state machine, the
  request and result bookkeeping of recognizer and verifier channels, the
  response and event tables, the application data store and the NLSML
  result lookups behind the `RECOG_*` dialplan functions;
- the module-wide configuration read from `mrcp.conf`: profiles, defaults
  and the speech-channel counter;
- the original single-file module `app_unimrcp.c`: header validation,
  parameter routing, its own result hand-off and option parsing;
- the Asterisk speech engine `res_speech_unimrcp.c`: speech-object
  numbering, grammar loading, active grammars, the RECOGNIZE body and the
  handling of responses and events.

One Dafny module models one source file (`text.dfy` holds the C library
helpers they share: `isspace`, `strcasecmp`, `atoi`, `strsep`, `strstr`,
`"%03d"`). Code that mutates records becomes classes with `modifies`
frames, and each method is tied by its `ensures` to a specification
function over values. Loops keep their invariants, and the lemmas state
what the source promises: round trips, write-once and consume-on-read
results, transition tables, and what routing and parsing keep. The world
outside the process comes in as parameters: MRCP responses and events,
whether a message could be created or sent, what a wait observed, the
iteration order of APR hash tables, the parsed configuration and NLSML
result. Dafny's integers are unbounded, so the 16- and 32-bit counters
and the unsigned connection count are written out with explicit
wrap-around.

## Model

| member | source | states |
|---|---|---|
| AudioQueue.BufferWrite | app-unimrcp/audio_queue.c:117-136 | a write leaves the contents unchanged or appends the bytes, never exceeds the capacity, and returns 0 or the new fill level |
| AudioQueue.BufferRead | app-unimrcp/audio_queue.c:95-115 | the bytes handed out followed by what is left are the old contents, and min(used, datalen) bytes are handed out |
| AudioQueue.WriteAppendsIffFits | app-unimrcp/audio_queue.c:117-136 | a non-empty write is accepted, and appends, exactly when it fits in the free space; a refused write changes nothing and returns 0; an empty write returns the fill level |
| AudioQueue.WriteThenReadRoundTrip | app-unimrcp/audio_queue.c:95-136 | writing to an empty buffer and reading as many bytes returns the same bytes and empties the buffer |
| AudioQueue.ReadChunks | app-unimrcp/audio_queue.c:95-115 | successive reads hand out the contents in order: the chunks joined, followed by the rest, are the original contents |
| AudioQueue.WriteChunks | app-unimrcp/audio_queue.c:117-136 | successive writes that fit leave the old contents followed by every chunk in order |
| AudioQueue.OlderBytesFirst | app-unimrcp/audio_queue.c:95-136 | first in, first out: bytes already queued are read before bytes written after them |
| AudioQueue.AudioBuffer.constructor | app-unimrcp/audio_queue.c:55-78 | a new buffer of the requested size holds nothing |
| AudioQueue.AudioBuffer.Create | app-unimrcp/audio_queue.c:55-78 | a size of 0 or less fails with -1 and no buffer; otherwise a fresh empty buffer of that size and status 0 |
| AudioQueue.AudioBuffer.InUse | app-unimrcp/audio_queue.c:87-93 | the number of bytes queued, never above the capacity |
| AudioQueue.AudioBuffer.Zero | app-unimrcp/audio_queue.c:138-142 | the buffer is emptied |
| AudioQueue.AudioBuffer.Write | app-unimrcp/audio_queue.c:117-136 | the new contents and the returned value are BufferWrite of the old contents |
| AudioQueue.AudioBuffer.Read | app-unimrcp/audio_queue.c:95-115 | the bytes copied out and the contents left are BufferRead of the old contents; at most datalen bytes; the rest of the destination is untouched |
| AudioQueue.Queue.constructor | app-unimrcp/audio_queue.c:207-261 | a named, empty queue of AUDIO_QUEUE_SIZE bytes with zeroed counters |
| AudioQueue.Queue.Clear | app-unimrcp/audio_queue.c:147-162 | the queue is emptied and 0 returned |
| AudioQueue.Queue.Write | app-unimrcp/audio_queue.c:309-336 | success (0) iff the buffer accepts the bytes, which are then queued and counted with the length kept; failure is -1, length 0 and nothing changed |
| AudioQueue.Queue.Read | app-unimrcp/audio_queue.c:264-306 | a blocking read short of data takes in the producer's write; the request is clamped to what is queued; nothing available gives -1 and length 0; otherwise the first bytes are handed out into the front of `dst`, removed and added to the read count; the write count grows by exactly the bytes of the producer's write when that write was accepted during the wait; `dst` past the copied length is untouched |
| AudioQueue.QueueWriteSucceeds | app-unimrcp/audio_queue.c:309-336 | a queue write succeeds iff the bytes fit, except that an empty write succeeds only while something is queued |
| Framework.NextChannelNumber | app-unimrcp/ast_unimrcp_framework.c:200-216 | the counter after one number is handed out is the successor modulo 2^32, never above UINT32_MAX |
| Framework.CounterIsModular | app-unimrcp/ast_unimrcp_framework.c:200-216 | after k numbers the counter has moved by k modulo 2^32 |
| Framework.CounterWithinPeriod | app-unimrcp/ast_unimrcp_framework.c:200-216 | within one period the counter counts up from n and wraps exactly once past UINT32_MAX |
| Framework.ChannelNumbersDistinct | app-unimrcp/ast_unimrcp_framework.c:200-216 | no channel number repeats within 2^32 calls, and after 2^32 calls the counter is back where it started |
| Framework.Globals.NextSpeechChannelNumber | app-unimrcp/ast_unimrcp_framework.c:200-216 | hands out the current number and advances the counter by NextChannelNumber |
| Framework.ProcessProfileConfig | app-unimrcp/ast_unimrcp_framework.c:284-309 | a parameter is claimed iff it is "version" or one of the five MIME keys (any case); each MIME key overwrites exactly its own field; "version" and unclaimed keys change nothing |
| Framework.Profile.ProcessConfig | app-unimrcp/ast_unimrcp_framework.c:284-309 | the profile's MIME types and the claimed flag are those of ProcessProfileConfig on the old MIME types |
| Framework.ApplyProfileParams | app-unimrcp/ast_unimrcp_framework.c:513-537 | the parameter loop with the profile handed over: every parameter reported unknown is claimed by none of the three dispatchers, and at most one report per parameter |
| Framework.ProfileParamsSetMimes | app-unimrcp/ast_unimrcp_framework.c:284-309 | in the corrected loop (profile handed over), for any parameters, each of the five MIME types is the value of the last parameter whose name equals its key ignoring case, else the type it had |
| Framework.ReportedIffUnclaimed | app-unimrcp/ast_unimrcp_framework.c:513-537 | in the corrected loop, for any parameters, a name is reported unknown exactly when some parameter has that name and none of the three dispatchers claims it |
| Framework.AsWrittenIgnoresProfileParams | app-unimrcp/ast_unimrcp_framework.c:471-534 | as written (the profile argument is a NULL local), no MIME override reaches the profile and no parameter is ever reported unknown |
| Framework.ProfileParamsTakeEffect | app-unimrcp/ast_unimrcp_framework.c:532-535 | a "jsgf-mime-type" setting changes the profile and a misspelt key is reported only when the profile is handed over; as written neither happens |
| Framework.NotClaimed | app-unimrcp/ast_unimrcp_framework.c:284-309 | the misspelling "jsgf-mime-typ" is claimed by none of the MRCPv2, RTP and profile dispatchers |
| Framework.Pairs | app-unimrcp/ast_unimrcp_framework.c:513-520 | the parameters of a profile are its configuration entries in the walk order, one per key |
| Framework.ProfileStep | app-unimrcp/ast_unimrcp_framework.c:532-536 | one parameter is reported unknown exactly when none of the MRCP, RTP and profile dispatchers claims it, and then it is appended to the report list |
| Framework.ApplyProfileParamsSnoc | app-unimrcp/ast_unimrcp_framework.c:513-537 | one more parameter extends the loop's result by exactly that parameter's step |
| Framework.NegativeCountWraps | app-unimrcp/ast_unimrcp_framework.c:679-683 | as written, "-5" is stored in the unsigned count as 2^64-5 and is not replaced by the default |
| Framework.MaxConnectionCount | app-unimrcp/ast_unimrcp_framework.c:679-683 | the count is positive: the parsed setting when it is positive, otherwise the default 120 |
| Framework.MaxConnectionCountAgrees | app-unimrcp/ast_unimrcp_framework.c:679-683 | the as-written and intended counts agree on every setting that does not parse to a negative number |
| Framework.OfferNewConnection | app-unimrcp/ast_unimrcp_framework.c:685-691 | unset gives the default; when set it is on iff the value is "true" in any case or parses to 1 |
| Framework.SelectedProfileName | app-unimrcp/ast_unimrcp_framework.c:218-244 | no option, or "default" in any case, selects the configured default profile name; any other option is used as given |
| Framework.LookupProfile | app-unimrcp/ast_unimrcp_framework.c:218-244 | a profile is found iff the selected name is in the table, and it is the table's entry for that name |
| Framework.DefaultOptionSelectsDefault | app-unimrcp/ast_unimrcp_framework.c:222-223 | the option "default" in any spelling finds the same profile as no option at all |
| Framework.Globals.GetSynthProfile | app-unimrcp/ast_unimrcp_framework.c:218-230 | the synthesizer profile is LookupProfile with the default TTS profile name |
| Framework.Globals.GetRecogProfile | app-unimrcp/ast_unimrcp_framework.c:232-244 | the recognizer profile is LookupProfile with the default ASR profile name |
| Framework.Profile.constructor | app-unimrcp/ast_unimrcp_framework.c:251-281 | a new profile has the given name and version, the five default MIME types and no parameters |
| Framework.Profile.Create | app-unimrcp/ast_unimrcp_framework.c:251-281 | fails with -1 and no profile when the name or the version is missing; otherwise a fresh profile with those values |
| Framework.Profile.Load | app-unimrcp/ast_unimrcp_framework.c:445-613 | the loop body as evidently intended, with this profile handed to `process_profile_config` (the corrected half of the first Findings row; as written the source hands over NULL, so the MIME types stay and nothing is reported): it succeeds iff the profile has a name, a version of exactly "1" or "2" and no empty parameter name; on success the MIME types and unknown reports are ApplyProfileParams of its parameters in walk order |
| Framework.Profile.LoadParam | app-unimrcp/ast_unimrcp_framework.c:562-586 | one turn of the parameter walk with this profile handed over, as evidently intended (as written the profile argument is NULL and the turn changes nothing): the MIME types and unknown reports equal ApplyProfileParams over one more parameter of the walk |
| Framework.Globals.constructor | app-unimrcp/ast_unimrcp_framework.c:153-197 | nothing configured, channel counter at 0, empty profile table, no default profiles |
| Framework.Globals.LoadProfiles | app-unimrcp/ast_unimrcp_framework.c:445-613 | returns 0 iff every profile in the walk passes the loadability checks, -1 otherwise; names, versions and parameters never change; on success each walked profile's MIME types and its report are ApplyProfileParams of its version, its previous MIME types and its parameters in the walk's key order; profiles outside the walk keep their MIME types |
| Framework.Globals.WalkProfiles | app-unimrcp/ast_unimrcp_framework.c:445-613 | the loop over the walked profiles: 0 iff each is loadable; on success each ends with the MIME types and report it is to get, in walk order |
| Framework.Globals.LoadMrcpConfig | app-unimrcp/ast_unimrcp_framework.c:740-833 | a missing file fails with -1 and changes no profile; a loaded file resets the globals and succeeds iff both default profiles are set; on success the general settings are in place and exactly the profile categories became profiles, on failure the table is empty |
| Framework.Globals.LoadGeneral | app-unimrcp/ast_unimrcp_framework.c:766-808 | succeeds iff both "default-tts-profile" and "default-asr-profile" are set, and then the general settings are in place |
| Framework.Globals.AddProfile | app-unimrcp/ast_unimrcp_framework.c:814-822 | the table gains exactly the category, every other entry is kept, and the new entry is a fresh profile built for that category with its variables |
| Framework.Globals.CreateProfiles | app-unimrcp/ast_unimrcp_framework.c:810-825 | one fresh profile per category other than "general" that sets a version, holding all its variables |
| SpeechChannel.SpacePrefixAfterSpaces | app-unimrcp/speech_channel.c:951-971 | white space put in front of a text adds exactly its length to the skipped prefix |
| SpeechChannel.LeadingSpaceIgnored | app-unimrcp/speech_channel.c:951-971 | leading white space never changes the outcome of the prefix test |
| SpeechChannel.MatchNeedsMore | app-unimrcp/speech_channel.c:962-968 | a text that is exactly the prefix does not start with it; with anything after the prefix, it does |
| SpeechChannel.GetGrammarType | app-unimrcp/speech_channel.c:761-794 | data that does not start with "inline:" is returned as is with a known type (URI data or a body classified); "inline:" data is cut seven characters after the start of the data |
| SpeechChannel.GetGrammarTypeSkippingSpace | app-unimrcp/speech_channel.c:761-794 | the corrected reading agrees with the as-written one on every input that does not start with "inline:" |
| SpeechChannel.InlineIdNotUri | app-unimrcp/speech_channel.c:761-794 | "inline:" data is not mistaken for URI data |
| SpeechChannel.SkippingSpaceAgrees | app-unimrcp/speech_channel.c:766-767 | without leading white space both readings give the same content and type |
| SpeechChannel.InlineBodyExtracted | app-unimrcp/speech_channel.c:766-791 | an "inline:" grammar after any white space yields its body, classified by its own first characters |
| SpeechChannel.DiffersAt | app-unimrcp/speech_channel.c:951-971 | a text that differs from the prefix at some position, with no white space in front, does not start with it |
| SpeechChannel.UnknownWhenFirstCharMatchesNothing | app-unimrcp/speech_channel.c:774-791 | a body whose first character starts none of the markers is of unknown type |
| SpeechChannel.InlineOffsetIgnoresSpace | app-unimrcp/speech_channel.c:766-767 | as written, two spaces before "inline:" make the content start at "e:" with unknown type; the corrected reading yields the body |
| SpeechChannel.JsgfBodyIsJsgf | app-unimrcp/speech_channel.c:784-785 | a body starting with "#JSGF" is classified as JSGF |
| SpeechChannel.GrammarTypeToMime | app-unimrcp/speech_channel.c:816-827 | the unknown type maps to the empty string; each known type to the profile's MIME string for it |
| SpeechChannel.DefaultMimesDistinct | app-unimrcp/speech_channel.c:816-827 | with the default MIME strings every known type has its own non-empty MIME type |
| SpeechChannel.GetSynthContentType | app-unimrcp/speech_channel.c:752-759 | text starting with "<?xml" or "<speak" after white space is sent as the profile's SSML type, and every other text as text/plain |
| SpeechChannel.SynthContentTypeCases | app-unimrcp/speech_channel.c:752-759 | "<?xml" or "<speak" followed by more text is the SSML type behind any leading white space; a bare "<speak" is plain text; text whose first non-blank characters are neither marker (such as "<p>hi") is plain text |
| SpeechChannel.GetSpeechCodec | app-unimrcp/speech_channel.c:831-877 | the result is mu-law, A-law or signed linear, and equals the format exactly when the format is one of those three |
| SpeechChannel.FormatToStr | app-unimrcp/speech_channel.c:895-908 | the MRCP codec name is "PCMU", "PCMA" or "L16" |
| SpeechChannel.FormatToBytesPerSample | app-unimrcp/speech_channel.c:910-923 | one or two bytes per sample |
| SpeechChannel.ChannelCodec | app-unimrcp/speech_channel.c:222-231 | a non-empty codec is kept; none gives a non-empty default |
| SpeechChannel.ChannelName | app-unimrcp/speech_channel.c:212-221 | a non-empty name is kept; none gives a non-empty default |
| SpeechChannel.NotContainedWhenLonger | app-unimrcp/speech_channel.c:250-255 | a string longer than the text is not found in it |
| SpeechChannel.CodecHelpersAgree | app-unimrcp/speech_channel.c:831-923 | on every negotiated format the codec name, the sample width and the silence byte agree with each other |
| SpeechChannel.TrimLeft | app-unimrcp/speech_channel.c:926-948 | the result is a suffix of the string, only blanks were cut, and it starts with a non-blank |
| SpeechChannel.TrimRight | app-unimrcp/speech_channel.c:926-948 | the result is a prefix of the string, only blanks were cut, and it ends with a non-blank |
| SpeechChannel.TrimLeftAt | app-unimrcp/speech_channel.c:933-936 | the first non-blank position determines the left trim |
| SpeechChannel.TrimRightAt | app-unimrcp/speech_channel.c:941-946 | the last non-blank position determines the right trim |
| SpeechChannel.TrimIsInfix | app-unimrcp/speech_channel.c:926-948 | the trimmed string is the middle of the original: blanks are cut on both sides only, and what is left starts and ends with a non-blank |
| SpeechChannel.TrimEmptyIffBlank | app-unimrcp/speech_channel.c:926-948 | trimming leaves nothing exactly when the string holds only blanks |
| SpeechChannel.TrimIdempotent | app-unimrcp/speech_channel.c:926-948 | trimming twice changes nothing |
| SpeechChannel.SkipBlanks | app-unimrcp/speech_channel.c:933-934 | the first loop stops at the first non-blank, where the left trim starts |
| SpeechChannel.ShiftDown | app-unimrcp/speech_channel.c:936-939 | the text is moved to the front and ended with NUL |
| SpeechChannel.CutTrailing | app-unimrcp/speech_channel.c:941-946 | the trailing blanks are overwritten with NUL, leaving the right trim |
| SpeechChannel.TrimStr | app-unimrcp/speech_channel.c:926-948 | the array then holds Trim of the old string, followed by NUL |
| SpeechChannel.RecognizerData.constructor | app-unimrcp/speech_channel.c:607-619 | a zero-filled record with an empty grammar table |
| SpeechChannel.OpenOutcomes | app-unimrcp/speech_channel.c:585-605 | open reports 0, -1 or 2; 0 exactly when the channel became READY or PROCESSING; 2 exactly after an ERROR whose session was closed |
| SpeechChannel.StopOutcomes | app-unimrcp/speech_channel.c:665-678 | stop never leaves the channel PROCESSING, and it ends in ERROR exactly when it was still processing or reported an error |
| SpeechChannel.SpeechChannel.constructor | app-unimrcp/speech_channel.c:191-316 | a CLOSED channel with the given or default name and codec, the silence byte of its codec and an empty, fresh audio queue |
| SpeechChannel.SpeechChannel.SetStateUnlocked | app-unimrcp/speech_channel.c:107-120 | the new state is set; leaving PROCESSING drops the queued audio, otherwise the queue is unchanged |
| SpeechChannel.SpeechChannel.Open | app-unimrcp/speech_channel.c:505-629 | a channel that is not CLOSED fails with -1 unchanged; a failed session gives 2; a failed channel add gives -1; otherwise the status is OpenOutcomes' and a recognizer gets a fresh, zeroed record |
| SpeechChannel.SpeechChannel.Stop | app-unimrcp/speech_channel.c:632-688 | only a PROCESSING channel is stopped; no STOP message means -1 and no change; otherwise the state is StopOutcomes' and -1 is returned exactly when it is ERROR |
| SpeechChannel.SpeechChannel.Read | app-unimrcp/speech_channel.c:691-715 | 0 and a queue read while PROCESSING (a non-blocking read hands out the oldest bytes); 1 and nothing changed otherwise |
| SpeechChannel.SpeechChannel.Write | app-unimrcp/speech_channel.c:718-750 | an empty write or one while not PROCESSING fails with -1 and changes nothing; otherwise 0 and the queue write, with length 0 on overflow |
| ChannelMethods.AcceptResults | app-unimrcp/app_channel_methods.c:124-163 | a set is refused, changing nothing, exactly while a completion cause >= 0 is held; an accepted set stores the cause and replaces the result and waveform URI only with non-empty values, leaving the input flags alone |
| ChannelMethods.TakeCompletionCause | app-unimrcp/app_channel_methods.c:166-199 | fails, changing nothing, exactly while the cause is negative; otherwise the cause is handed out only when asked for, as at least three digits that read back as the cause, and is then reset to 0 |
| ChannelMethods.TakeResults | app-unimrcp/app_channel_methods.c:202-230 | always succeeds; the result and waveform URI are handed out only when asked for and non-empty, and each one handed out is cleared from the record; everything else is kept |
| ChannelMethods.TakeResultsStrict | app-unimrcp/app_mrcprecog.c:404-459 | the recognizer application's getter fails, changing nothing, while no completion cause is held and otherwise behaves as the shared getter |
| ChannelMethods.StrictGetRoundTrip | app-unimrcp/app_mrcpverif.c:380-425 | before results arrive the strict getter fails; after a set it reads back the cause, result and URI, and a second get finds only the cause "000" |
| ChannelMethods.ResultsWriteOnce | app-unimrcp/app_channel_methods.c:145-157 | once a set with a cause >= 0 is accepted, every later set is refused and leaves the record unchanged |
| ChannelMethods.SetThenGetRoundTrip | app-unimrcp/app_channel_methods.c:124-230 | a set on a fresh record followed by a get hands back the same cause, result and URI; a second get finds the result and URI gone and the cause "000" |
| ChannelMethods.ChannelSetResults | app-unimrcp/app_channel_methods.c:124-163 | on a channel with a recognizer record the status and new record are those of AcceptResults and the grammars are kept; without a record it fails |
| ChannelMethods.ChannelGetCompletionCause | app-unimrcp/app_channel_methods.c:166-199 | on a channel with a record the status, cause and new record are those of TakeCompletionCause; without a record it fails |
| ChannelMethods.ChannelGetResults | app-unimrcp/app_channel_methods.c:202-230 | the outputs and the new record are those of TakeResults and the grammars are kept |
| ChannelMethods.ChannelSetStartOfInput | app-unimrcp/app_channel_methods.c:97-121 | with a record, only its start-of-input flag changes, to 1, and 0 is returned; without one it fails |
| ChannelMethods.ChannelSetTimersStarted | app-unimrcp/app_channel_methods.c:233-255 | with a record, only its timers-started flag changes, to 1, and 0 is returned; without one it fails |
| ChannelMethods.ChannelStartInputTimers | app-unimrcp/app_channel_methods.c:54-94 | START-INPUT-TIMERS is sent exactly when the channel is PROCESSING, the timers are not yet started and the message can be created; only a due message that cannot be created, or a missing record, fails |
| ChannelMethods.JoinedEmpty | app-unimrcp/app_channel_methods.c:303-327 | the body built from the grammars is empty exactly when every grammar's data is empty |
| ChannelMethods.JoinedIsJoin | app-unimrcp/app_channel_methods.c:303-327 | with no empty grammar data, the body is the grammars joined by CRLF |
| ChannelMethods.BuildRefs | app-unimrcp/app_channel_methods.c:303-327 | the body is the join of the grammars taken, always shorter than the 4096-byte buffer, and the first grammar left out is one that would not have fitted with its separator and NUL |
| ChannelMethods.AllFit | app-unimrcp/app_channel_methods.c:303-327 | when every grammar fits, all of them are taken and the body is their full join |
| ChannelMethods.DataInOrder | app-unimrcp/app_channel_methods.c:304-307 | the grammar data handed out follows the table's iteration order, one entry per key |
| ChannelMethods.CopyInto | app-unimrcp/app_channel_methods.c:314-320 | a copy into the buffer places the string at the offset and keeps every byte before it |
| ChannelMethods.FillGrammarRefs | app-unimrcp/app_channel_methods.c:303-327 | the loop over the grammar table, with its running length, leaves exactly the body BuildRefs describes in the buffer |
| ChannelMethods.StoppedStays | app-unimrcp/app_channel_methods.c:309-312 | once a grammar has been dropped because it did not fit, the remaining grammars add nothing |
| ChannelMethods.RecogChannelStart | app-unimrcp/app_channel_methods.c:258-392 | only a READY channel with a record starts; it resets the record (no result, cause -1, no start of input, timers flag as asked), sends the grammars' body, empties the audio queue once a RECOGNIZE is created, and succeeds exactly when the channel is PROCESSING after the wait; otherwise nothing changes |
| ChannelMethods.RecognizeBodyBounded | app-unimrcp/app_channel_methods.c:303-370 | the RECOGNIZE body always fits the buffer with its NUL and is empty only when every grammar taken is empty |
| ChannelMethods.SessionRef | app-unimrcp/app_channel_methods.c:465-468 | the session reference is "session:" plus the name, cut to 254 characters, and is the whole text whenever the name fits |
| ChannelMethods.RecogChannelLoadGrammar | app-unimrcp/app_channel_methods.c:395-482 | a grammar type without a MIME type, or a channel not READY, is refused with nothing changed; a URI grammar is stored at once; any other is sent with DEFINE-GRAMMAR and kept, as the URI of its session reference, exactly when the channel is READY again after the wait; so every grammar stored is a URI |
| ChannelMethods.VerifRequestFor | app-unimrcp/app_channel_methods.c:584-620 | the buffer-handling option selects VERIFY-FROM-BUFFER, CLEAR-BUFFER or VERIFY-ROLLBACK by prefix, else plain VERIFY, and only the last two count as buffer operations |
| ChannelMethods.VerifRequestChoices | app-unimrcp/app_channel_methods.c:584-620 | each of the three prefixes selects its request, and a value starting with none of their first letters falls back to VERIFY |
| ChannelMethods.VerifChannelStart | app-unimrcp/app_channel_methods.c:485-649 | a channel not READY or without a record fails with nothing changed; otherwise the record is reset (no result, no start of input, timers flag as asked) and its cause is the one recorded during the VERIFY wait, else -1; START-SESSION is sent only while no verification session is open, the queue is emptied just before, and the session is remembered iff the channel is READY afterwards; the final state and queue are given per exchange; 0 exactly when the session step succeeded, VERIFY was created and sent, and a cause >= 0 was recorded or the channel is READY after a buffer operation / PROCESSING after any other VERIFY |
| Dispatcher.RecogTable | app-unimrcp/app_msg_process_dispatcher.c:119-213 | for every message, the recognizer channel moves to PROCESSING, to READY or stays put exactly in the cases the handler lists, results are recorded exactly for RECOGNITION-COMPLETE and for failed RECOGNIZE or DEFINE-GRAMMAR responses with a known cause, and timers are marked only on a 2xx START-INPUT-TIMERS response |
| Dispatcher.VerifTable | app-unimrcp/app_msg_process_dispatcher.c:216-306 | the same reading of the verifier handler; CLEAR-BUFFER and VERIFY-ROLLBACK responses never give ERROR, record their status code as the cause once complete, and give READY on 2xx |
| Dispatcher.ForeignMethodsAreErrors | app-unimrcp/app_msg_process_dispatcher.c:189-206 | a verifier message on a recognizer channel, or a recognizer message on a verifier channel, moves the channel to ERROR |
| Dispatcher.Apply | app-unimrcp/app_msg_process_dispatcher.c:142-199 | carrying out an effect sets the new state when there is one, empties the audio queue when a PROCESSING channel leaves that state, and updates the result record as ApplyToRecord says, keeping the grammars |
| Dispatcher.CompletionIsReadBack | app-unimrcp/app_msg_process_dispatcher.c:196-199 | a RECOGNITION-COMPLETE arriving after the request started is read back by the application with its cause, body and waveform URI |
| Dispatcher.FirstCauseWins | app-unimrcp/app_msg_process_dispatcher.c:136-144 | a failed RECOGNIZE whose cause was recorded keeps that cause, and a later RECOGNITION-COMPLETE changes nothing |
| Dispatcher.RecogOnMessageReceive | app-unimrcp/app_msg_process_dispatcher.c:119-213 | the handler returns TRUE and leaves the state and record that the recognizer table's effect prescribes |
| Dispatcher.VerifOnMessageReceive | app-unimrcp/app_msg_process_dispatcher.c:216-306 | the handler returns TRUE and leaves the state and record that the verifier table's effect prescribes |
| Dispatcher.SpeechOnChannelAdd | app-unimrcp/app_msg_process_dispatcher.c:309-367 | on success with a codec descriptor the channel takes its sampling rate, keeps its session id or adopts the server's, and is READY; a missing descriptor gives ERROR and FALSE; a failure status gives ERROR and TRUE |
| Dispatcher.FillFrom | app-unimrcp/app_msg_process_dispatcher.c:415-416 | the padding fills every byte from the offset to the end with the silence byte and keeps the bytes before it |
| Dispatcher.StreamRead | app-unimrcp/app_msg_process_dispatcher.c:389-422 | only a PROCESSING channel with no DTMF being sent produces audio: the frame starts with what the queue hands out, as many bytes as it holds up to the frame size, and is padded with the silence byte; otherwise neither the frame nor the queue changes |
| AppDatastore.PromptsRemaining | app-unimrcp/app_recogverif.c:371-376 | prompts remain exactly while the cursor is before the end, and then the cursor plus what remains is the number of prompts |
| AppDatastore.PromptsCountDown | app-unimrcp/app_recogverif.c:379-385 | each advance leaves one prompt fewer, and as many advances as there are prompts, from the start, exhaust the list |
| AppDatastore.SessionLifetime | app-unimrcp/app_recogverif.c:500-518 | the entry is the one the datastore option names, else the default; the lifetime option, when given, makes the session dynamic exactly when it reads as 0; without it the session is persistent exactly when an entry was named |
| AppDatastore.AppSession.constructor | app-unimrcp/app_datastore.c:253-277 | a new session carries the channel number it was given, is dynamic, has no channels, no result, XML instances, no newline replacement and no prompts |
| AppDatastore.AppSession.PromptsAvailable | app-unimrcp/app_recogverif.c:371-376 | prompts are available exactly while the cursor is before the end of the list |
| AppDatastore.AppSession.PromptsAdvance | app-unimrcp/app_recogverif.c:379-385 | at the end the cursor stays and -1 is returned; otherwise the cursor moves on by one and the prompts still available are returned |
| AppDatastore.AppSession.PromptToPlay | app-unimrcp/app_recogverif.c:388-401 | a file is played exactly when the cursor is within the list, and it is the prompt under the cursor |
| AppDatastore.AppDatastore.constructor | app-unimrcp/app_datastore.c:204-240 | a new datastore has the given name, no sessions and no last recognition entry |
| AppDatastore.SessionAdd | app-unimrcp/app_datastore.c:242-280 | a missing datastore or entry gives no session and consumes no channel number; an existing entry's session is reused with its fields kept; a new entry gets a fresh session numbered with the next channel number; in every case the prompt state is reset |
| AppDatastore.SessionFind | app-unimrcp/app_datastore.c:283-310 | a session is found exactly when the datastore names a last recognition entry that it holds, and it is that entry's session |
| AppDatastore.InstanceAt | app-unimrcp/app_datastore.c:337-390 | instance j of interpretation i exists exactly when both indices are in range, and it is that instance |
| AppDatastore.InterpretationFind | app-unimrcp/app_datastore.c:313-334 | without a session or result nothing is found; otherwise the interpretation at the index the n-best argument reads as, 0 without one |
| AppDatastore.InstanceFind | app-unimrcp/app_datastore.c:337-390 | without a session or result nothing is found; otherwise the instance the "i/j/path" selector indexes, together with its path |
| AppDatastore.EveryInstanceSelectable | app-unimrcp/app_datastore.c:337-390 | every instance of a result is found by the selector "i/j" its indices print as, with no path, and by "i/j/path" with that path |
| AppDatastore.RecogConfidence | app-unimrcp/app_datastore.c:393-408 | succeeds exactly when the interpretation the argument names exists |
| AppDatastore.RecogGrammar | app-unimrcp/app_datastore.c:417-435 | succeeds exactly when that interpretation exists and has a grammar, and then the buffer holds the grammar cut to the buffer size |
| AppDatastore.RecogInput | app-unimrcp/app_datastore.c:444-467 | succeeds exactly when that interpretation has an input with content, and then the buffer holds the content cut to the buffer size |
| AppDatastore.RecogInputMode | app-unimrcp/app_datastore.c:476-499 | succeeds exactly when that interpretation has an input with a mode, and then the buffer holds the mode cut to the buffer size |
| AppDatastore.RecogInputConfidence | app-unimrcp/app_datastore.c:508-528 | succeeds exactly when that interpretation has an input |
| AppDatastore.CopyAndReplace | app-unimrcp/app_datastore.c:717-720 | the buffer is the text cut to its size, with every newline replaced when a replacement character is set |
| AppDatastore.RecogInstance | app-unimrcp/app_datastore.c:688-719 | fails without a session or result; otherwise succeeds exactly when the selected instance yields a text, and the buffer then holds that text cut and with newlines replaced |
| AppDatastore.RecogInstanceHasNoNewline | app-unimrcp/app_datastore.c:557-566 | with a replacement character set, no newline is left in the buffer |
| RecogDatastore.RecogData.constructor | app-unimrcp/recog_datastore.c:161-164 | a new datastore carries the channel's name and no result |
| RecogDatastore.ResultSet | app-unimrcp/recog_datastore.c:137-177 | a channel without a datastore whose allocation fails gets -1 and none; otherwise the existing datastore, or a fresh one named after the channel, holds the new parse, even a failed one, and 0 is returned |
| RecogDatastore.InterpretationFind | app-unimrcp/recog_datastore.c:194-215 | without a stored result nothing is found; otherwise the interpretation at the n-best index, 0 without one |
| RecogDatastore.InstanceFind | app-unimrcp/recog_datastore.c:218-261 | without a stored result nothing is found; otherwise the instance the "i/j" argument indexes |
| RecogDatastore.InstanceFindersAgree | app-unimrcp/recog_datastore.c:218-261 | on the same result and argument this datastore and the application datastore find the same instance |
| RecogDatastore.RecogConfidence | app-unimrcp/recog_datastore.c:264-276 | succeeds exactly when the interpretation the argument names exists |
| RecogDatastore.RecogGrammar | app-unimrcp/recog_datastore.c:285-300 | succeeds exactly when that interpretation has a grammar, and the buffer then holds it cut to the buffer size |
| RecogDatastore.RecogInput | app-unimrcp/recog_datastore.c:309-329 | succeeds exactly when that interpretation has an input with content, and the buffer then holds the content cut to the buffer size |
| RecogDatastore.RecogInstance | app-unimrcp/recog_datastore.c:338-353 | fails without a stored result; otherwise succeeds exactly when the selected instance has content, and the buffer then holds it cut to the buffer size |
| RecogDatastore.StoredInstanceReadable | app-unimrcp/recog_datastore.c:218-261 | after a result is stored, the argument "i/j" printed from an instance's indices reads back that instance |
| Nlsml.Nth | app-unimrcp/app_datastore.c:324-333 | an element is found exactly when the index is within the list, and it is the element at that index |
| Nlsml.Walk | app-unimrcp/app_datastore.c:324-333 | walking from the first element and counting the index down finds exactly the element Nth names, and nothing for a negative index |
| Nlsml.ParseSelector | app-unimrcp/app_datastore.c:351-366 | no argument selects instance 0 of interpretation 0; a path is handed back only when the argument holds a '/' |
| Nlsml.ParseIndexPair | app-unimrcp/recog_datastore.c:218-240 | no argument selects instance 0 of interpretation 0 |
| Nlsml.SelectorsAgree | app-unimrcp/recog_datastore.c:218-240 | the two datastores read the same interpretation and instance indices from any argument |
| Nlsml.SelectorRoundTrip | app-unimrcp/app_datastore.c:351-366 | the selector "i/j/path" printed from two numbers and a path reads back as exactly those numbers and that path |
| Nlsml.PairRoundTrip | app-unimrcp/app_datastore.c:351-366 | the selector "i/j" reads back as those two numbers with no path |
| Nlsml.BareNumberSelectsInstance | app-unimrcp/app_datastore.c:363-365 | a bare number selects that instance of the first interpretation |
| Nlsml.FirstNamed | app-unimrcp/app_datastore.c:545-553 | the child found is the first one named like the segment, ignoring case; none is found exactly when no child is so named |
| Nlsml.FindElem | app-unimrcp/app_datastore.c:537-555 | an element found by a path is named like its last segment, ignoring case |
| Nlsml.FindElemSteps | app-unimrcp/app_datastore.c:540-551 | a single segment finds a child exactly when one is so named, and following "a/rest" is following "a" and then "rest" from the child found |
| Nlsml.Replaced | app-unimrcp/app_datastore.c:557-566 | the replacement keeps the length and changes exactly the characters equal to the one searched for |
| Nlsml.ReplacedRemovesAll | app-unimrcp/app_datastore.c:557-566 | after replacing, the searched character no longer occurs, and replacing again changes nothing |
| Nlsml.ReplaceChar | app-unimrcp/app_datastore.c:557-566 | the scan over the NUL-terminated buffer replaces every occurrence before the NUL, touches nothing from the NUL on, and returns the number of occurrences |
| AppOptions.ApplyTokensSnoc | app-unimrcp/app_mrcprecog.c:948-973 | applying one more token applies it to the options the earlier tokens left |
| AppOptions.ActsKeepFlagUnset | app-unimrcp/app_mrcprecog.c:857-933 | a key whose actions do not name a flag leaves that flag unset |
| AppOptions.FlagNeverSet | app-unimrcp/app_mrcprecog.c:857-933 | a flag no key is routed to is never set, whatever the option string |
| AppOptions.ApplyTokensAppend | app-unimrcp/app_mrcprecog.c:948-973 | applying two token lists one after the other is applying their concatenation |
| AppOptions.ActsKeepHeaders | app-unimrcp/app_mrcprecog.c:857-933 | applying an option never removes a header field already set |
| AppOptions.HeadersPersist | app-unimrcp/app_mrcprecog.c:948-973 | a header field set by an earlier token stays set whatever the later tokens |
| AppOptions.ActsStoreHeaders | app-unimrcp/app_mrcprecog.c:859-898 | a key's actions store the value in each header field it names and leave every other field as it was |
| AppOptions.ActsStoreFlags | app-unimrcp/app_mrcprecog.c:899-928 | a key's actions set each flag it names with the value as its parameter and leave every other flag and parameter as it was |
| AppOptions.LaterTokenWins | app-unimrcp/app_mrcprecog.c:948-973 | a later token for the same key overwrites what an earlier one stored, in every header and flag parameter the key names |
| AppOptions.TokenWithoutValueIgnored | app-unimrcp/app_mrcprecog.c:966-970 | a token without '=' changes nothing |
| AppOptions.UnknownKeyIgnored | app-unimrcp/app_mrcprecog.c:857-933 | a token whose key no branch of the option table names changes nothing |
| AppOptions.FoldedKey | app-unimrcp/app_mrcprecog.c:859-928 | comparing a key case-insensitively with a lower-case table key is comparing the key's lower-case form with it, so a lower-case lookup table is the chain of strcasecmp tests |
| AppOptions.QuotedStep | app-unimrcp/app_mrcprecog.c:948-963 | one step of the splitting always leaves a strictly shorter rest |
| AppOptions.QuotedTokens | app-unimrcp/app_mrcprecog.c:948-973 | any string, even an empty one, yields at least one token |
| AppOptions.PlainTokens | app-unimrcp/app_synthandrecog.c:1150-1156 | any string, even an empty one, yields at least one piece |
| AppOptions.QuotedTokensSplit | app-unimrcp/app_mrcprecog.c:960-963 | a token free of '&' and not opened by space or '<' is split off whole at the next '&', and on its own is the only token |
| AppOptions.QuotedTokensQuote | app-unimrcp/app_mrcprecog.c:953-958 | a '<'-quoted token keeps its '&'s, and whatever follows its '>' up to the next '&' is dropped |
| AppOptions.PlainTokensSplit | app-unimrcp/app_synthandrecog.c:1150-1156 | splitting at '&' peels off the first piece, and a string without '&' is the only piece |
| AppOptions.Options.constructor | app-unimrcp/app_mrcprecog.c:944-946 | a new option record has no header fields, no flags and no parameters |
| AppOptions.Options.ApplyOption | app-unimrcp/app_mrcprecog.c:857-933 | applying an option carries out the key's actions in order on the option record |
| AppOptions.Options.ApplyTokenTo | app-unimrcp/app_mrcprecog.c:966-970 | the option record becomes what applying the token says: the key before the first '=' and the value after it, nothing without '=' |
| AppOptions.Options.ParseQuoted | app-unimrcp/app_mrcprecog.c:936-976 | the loop leaves the option record with the tokens of the quoted splitting applied in order |
| AppOptions.Options.ParsePlain | app-unimrcp/app_synthandrecog.c:1135-1158 | the loop leaves the option record with the '&'-separated pieces applied in order |
| AppOptions.GrammarNamesDistinct | app-unimrcp/app_mrcprecog.c:1188 | grammars at different positions are loaded under different names |
| AppOptions.NamedGrammars | app-unimrcp/app_mrcprecog.c:1178-1197 | one grammar per non-empty piece of the argument, in order, the k-th named "grammar-k" |
| AppOptions.Param | app-unimrcp/app_mrcprecog.c:1098 | a parameter is used exactly when its flag is set and it is non-empty |
| AppOptions.Delimiters | app-unimrcp/app_mrcprecog.c:1164-1170 | the delimiters are those the option names when given, else the default ones |
| AppOptions.BargeIn | app-unimrcp/app_mrcprecog.c:1096-1101 | barge-in is 0 or 1, and is off exactly when the parameter is given and reads as 0 |
| AppOptions.ExitOnPlayErrorPolicy | app-unimrcp/app_mrcprecog.c:1229-1236 | the policy is 0 without the parameter, the parameter's number when it lies in 0..2, and 1 otherwise |
| AppOptions.RecogDtmfPolicy | app-unimrcp/app_mrcprecog.c:1103-1114 | DTMF goes to the recognizer without the option or with "none"; "disable" ignores it; "any" interrupts on every digit; any other value interrupts on the digits it lists |
| AppOptions.DtmfFrame | app-unimrcp/app_mrcprecog.c:1397-1415 | as intended, a key interrupts exactly when interruption is on and the key is one of the interrupting digits (or the digits are "any"), and is queued exactly when DTMF goes to the recognizer |
| AppOptions.DtmfEveryKeyInterrupts | app-unimrcp/app_mrcprecog.c:1409 | as written, once the option makes digits interrupt, every key interrupts, listed or not |
| AppOptions.DtmfOtherKeyInterruptsAsWritten | app-unimrcp/app_mrcprecog.c:1409 | with the digits "12", the key 5 interrupts as written and is ignored as intended |
| AppOptions.InputTimersPolicy | app-unimrcp/app_mrcprecog.c:1283-1292 | without the parameter the policy is unchanged; with it, 0 gives off, 1 gives on, anything else automatic |
| AppOptions.StartInputTimers | app-unimrcp/app_mrcprecog.c:1295-1297 | under the automatic policy the timers start exactly when no prompt is still playing; otherwise exactly when the policy is on |
| AppOptions.ExitCode | app-unimrcp/app_mrcprecog.c:1012-1034 | an application returns -1 exactly for an error status and 0 otherwise |
| MrcpRecog.Route | app-unimrcp/app_mrcprecog.c:857-933 | a key, in any case, names at most one action: its recognizer header field when it is a header key, its flag when it is a flag key, and nothing exactly when it is neither |
| MrcpRecog.RouteExamples | app-unimrcp/app_mrcprecog.c:859-927 | "t" in any case is Recognition-Timeout, "spl" Speech-Language, "sit" the input-timer flag, and the verifier key "vm" is not an option of this application |
| MrcpRecog.ParseOptions | app-unimrcp/app_mrcprecog.c:936-976 | parsing returns 0; without an option string no option is set; otherwise the options are the quoted tokens applied in order |
| MrcpRecog.HeaderOptionStored | app-unimrcp/app_mrcprecog.c:936-976 | the header field of a header key holds the value of its last token |
| MrcpRecog.UnknownOptionIgnored | app-unimrcp/app_mrcprecog.c:857-933 | a token with a key the application does not know leaves the options unchanged |
| MrcpRecog.Session.constructor | app-unimrcp/app_mrcprecog.c:1076-1082 | a new session has no channel, no prompts, the cursor at 0 and the automatic input-timer policy |
| MrcpRecog.Session.PromptsAvailable | app-unimrcp/app_mrcprecog.c:979-984 | prompts are available exactly while the cursor is before the end, and then the cursor plus the count is the number of prompts |
| MrcpRecog.Session.PromptsAdvance | app-unimrcp/app_mrcprecog.c:987-993 | at the end the cursor stays and -1 is returned; otherwise the cursor moves on by one and the prompts still available are returned |
| MrcpRecog.Session.PromptToPlay | app-unimrcp/app_mrcprecog.c:996-1009 | a file is played exactly when the cursor is within the list, and it is the prompt under the cursor |
| MrcpRecog.GrammarNamesUnique | app-unimrcp/app_mrcprecog.c:1176-1197 | the grammars of the argument are loaded under distinct names, the k-th as "grammar-k" |
| MrcpRecog.GetResults | app-unimrcp/app_mrcprecog.c:404-459 | outputs and the new record are those of the strict getter, failing without a record or while the cause is negative; the recognition datastore changes only when a result is handed out, and then holds its parse |
| MrcpRecog.AgreesWithDispatcher | app-unimrcp/app_mrcprecog.c:712-799 | against the shared handler every message gives the same state and flags; results differ exactly for a failed RECOGNIZE or DEFINE-GRAMMAR with a known cause, which this handler does not record; only RECOGNITION-COMPLETE records results |
| MrcpRecog.OnMessageReceive | app-unimrcp/app_mrcprecog.c:712-799 | the handler returns TRUE and leaves the state and record this application's table prescribes |
| MrcpSynth.Route | app-unimrcp/app_mrcpsynth.c:394-426 | a key, in any case, names at most one action: its synthesizer header field, its flag, or nothing exactly when it is neither |
| MrcpSynth.RouteExamples | app-unimrcp/app_mrcpsynth.c:394-426 | "v" in any case is Voice-Name, "ll" Load-Lexicon, "i" the interrupt flag, and "vn" is not an option of this application |
| MrcpSynth.ParseOptions | app-unimrcp/app_mrcpsynth.c:429-449 | parsing returns 0; without an option string no option is set; otherwise the options are the '&'-separated pieces applied in order |
| MrcpSynth.HeaderOptionStored | app-unimrcp/app_mrcpsynth.c:429-449 | the header field of a header key holds the value of its last token |
| MrcpSynth.UnknownOptionIgnored | app-unimrcp/app_mrcpsynth.c:394-426 | a token with a key the application does not know leaves the options unchanged |
| MrcpSynth.DtmfPolicy | app-unimrcp/app_mrcpsynth.c:527-537 | DTMF interruption is off without the option and on exactly when its value is not "none"; the digits are all digits for "any" and the value itself otherwise |
| MrcpSynth.SynthesisLoop | app-unimrcp/app_mrcpsynth.c:602-643 | the loop stops at the first pass with a hangup, an interrupting key or a channel no longer PROCESSING; it ends INTERRUPTED exactly for a hangup or an interrupting key, OK otherwise, and sends BARGE-IN-OCCURRED exactly for an interrupting key |
| MrcpSynth.AnyDigitInterrupts | app-unimrcp/app_mrcpsynth.c:532-533 | with "any", every DTMF digit interrupts the synthesis |
| MrcpSynth.NoKeyInterruptsByDefault | app-unimrcp/app_mrcpsynth.c:527-530 | without the option no key interrupts the synthesis |
| MrcpSynth.SynthTable | app-unimrcp/app_mrcpsynth.c:231-299 | only SPEAK in progress gives PROCESSING; only a completed STOP or BARGE-IN-OCCURRED and SPEAK-COMPLETE give READY; every other message gives ERROR, and none closes the channel |
| MrcpSynth.Format03d | app-unimrcp/app_mrcpsynth.c:285 | a non-negative cause prints as at least three zero-padded digits; a negative one as a minus sign and digits, three characters at least |
| MrcpSynth.Format03dRoundTrip | app-unimrcp/app_mrcpsynth.c:285 | the printed cause reads back as the same number |
| MrcpSynth.CauseVariable | app-unimrcp/app_mrcpsynth.c:283-287 | only SPEAK-COMPLETE sets the completion-cause variable |
| MrcpSynth.CauseVariableReadsBack | app-unimrcp/app_mrcpsynth.c:283-287 | the variable reads back as the event's cause, and a cause of 0..999 prints as exactly three characters |
| MrcpSynth.OnMessageReceive | app-unimrcp/app_mrcpsynth.c:231-299 | the handler returns TRUE, moves the channel to the table's state, drops queued audio when it leaves PROCESSING, and sets the variable exactly on SPEAK-COMPLETE |
| SynthAndRecog.ProfileFrom | app-unimrcp/app_synthandrecog.c:1105-1110 | the key "p" sets the recognizer and the synthesizer profile flags, in that order; no other key sets them |
| SynthAndRecog.Route | app-unimrcp/app_synthandrecog.c:1050-1132 | a key, in any case, names at most two actions: the recognizer and synthesizer header fields it is a key of, its flag, or both profiles for "p"; every header action comes from one of the two tables; nothing exactly when it is none of these |
| SynthAndRecog.LanguageRoute | app-unimrcp/app_synthandrecog.c:1088-1090 | "spl" in any case writes Speech-Language into both the recognizer and the synthesizer headers |
| SynthAndRecog.ProfileRoute | app-unimrcp/app_synthandrecog.c:1105-1110 | "p" in any case sets both profile flags |
| SynthAndRecog.ParseOptions | app-unimrcp/app_synthandrecog.c:1135-1158 | parsing returns 0; without an option string no option is set; otherwise the options are the '&'-separated pieces applied in order |
| SynthAndRecog.LanguageForBoth | app-unimrcp/app_synthandrecog.c:1088-1090 | after a last "spl=v" token both requests carry Speech-Language v |
| SynthAndRecog.ProfileForBoth | app-unimrcp/app_synthandrecog.c:1105-1110 | after a last "p=v" token with v non-empty, both channels use profile v |
| SynthAndRecog.UnknownOptionIgnored | app-unimrcp/app_synthandrecog.c:1050-1132 | a token with a key the application does not know leaves the options unchanged |
| SynthAndRecog.PromptTexts | app-unimrcp/app_synthandrecog.c:1473-1497 | the prompts taken from the argument are never empty |
| SynthAndRecog.Session.constructor | app-unimrcp/app_synthandrecog.c:1339-1351 | a new session has its channel number, no channels, no prompts, the cursor at 0, no file stream and the automatic input-timer policy |
| SynthAndRecog.Session.PromptsAvailable | app-unimrcp/app_synthandrecog.c:1161-1166 | prompts are available exactly while the cursor is before the end, and then the cursor plus the count is the number of prompts |
| SynthAndRecog.Session.PromptsAdvance | app-unimrcp/app_synthandrecog.c:1169-1175 | at the end the cursor stays and -1 is returned; otherwise the cursor moves on by one and the prompts still available are returned |
| SynthAndRecog.SynthChannelSpeak | app-unimrcp/app_synthandrecog.c:396-463 | returns 0 or -1, and 0 exactly when the channel was READY, the message was made and sent, and the handler left PROCESSING; a channel not READY or a message not made leaves state and queue alone; once the message is made the queue is emptied and the state is what the handler left (READY when nothing was sent) |
| SynthAndRecog.Session.PromptPlay | app-unimrcp/app_synthandrecog.c:1178-1254 | out of bounds nothing happens; an audio file plays exactly when its stream opens, and then the synthesizer channel is released; text on an existing synthesizer channel plays exactly when SPEAK works from its state; with none, a channel named "TTS-number" is made, stays CLOSED without a profile, is left as the open left it when the open fails, and plays exactly when the open works and SPEAK works from the state it left; a prompt played is the one under the cursor, and a text prompt played leaves the synthesizer channel PROCESSING with its audio queue empty |
| SynthAndRecog.Session.Exit | app-unimrcp/app_synthandrecog.c:1257-1285 | the application returns -1 exactly for an error status, and RECOG_SID is the recognition channel's session id when there is that channel |
| SynthAndRecog.SynthOnMessageReceive | app-unimrcp/app_synthandrecog.c:313-371 | the synthesizer channel moves to the state of the synthesizer table and drops queued audio when it leaves PROCESSING |
| SynthAndRecog.InputTimersRule | app-unimrcp/app_synthandrecog.c:1569-1582 | without the "sit" option the timers start exactly when no prompt is playing; "sit=0" never starts them with RECOGNIZE and "sit=1" always does |
| MrcpVerif.Route | app-unimrcp/app_mrcpverif.c:711-775 | a key, in any case, names at most one action: its verification session header, its verifier header or its flag; a flag set comes only from the flag table; nothing exactly when it is none of these |
| MrcpVerif.RouteExamples | app-unimrcp/app_mrcpverif.c:711-775 | "sw" in any case is Ver-Buffer-Utterance, "vm" Verification-Mode, and the recognizer key "dit" is not an option of this application |
| MrcpVerif.ParseOptions | app-unimrcp/app_mrcpverif.c:778-831 | without an option string no option is set and 0 is returned; otherwise the options are the quoted tokens applied in order, and 0 is returned exactly when Verification-Mode, Repository-URI and Voiceprint-Identifier are all set, -1 otherwise |
| MrcpVerif.MandatoryKeysRoute | app-unimrcp/app_mrcpverif.c:731-736 | "vm", "rpuri" and "vpid" route to the three mandatory session headers |
| MrcpVerif.HeaderTokenKept | app-unimrcp/app_mrcpverif.c:794-819 | a session header set by any token is still set after all the tokens |
| MrcpVerif.MandatoryHeadersSuffice | app-unimrcp/app_mrcpverif.c:821-830 | options that end with "vm", "rpuri" and "vpid" tokens pass the mandatory check whatever came before |
| MrcpVerif.DefaultEntryOnly | app-unimrcp/app_mrcpverif.c:944-962 | no key sets the datastore-entry flag, so the session always uses the default entry and is persistent only when the lifetime option is given |
| MrcpVerif.GetResults | app-unimrcp/app_mrcpverif.c:380-425 | fails without a record; otherwise the outputs and new record are those of the strict getter, which fails while the cause is negative |
| MrcpVerif.AgreesWithDispatcher | app-unimrcp/app_mrcpverif.c:575-653 | against the shared verifier handler every message has the same effect, except responses to VERIFY-FROM-BUFFER, VERIFY-ROLLBACK and CLEAR-BUFFER, which only give ERROR here |
| MrcpVerif.FailedVerifyIsReadBack | app-unimrcp/app_mrcpverif.c:586-600 | a VERIFY that completes at once with a known cause gives ERROR, and the getter then reads back that cause |
| MrcpVerif.OnMessageReceive | app-unimrcp/app_mrcpverif.c:575-653 | the handler returns TRUE and leaves the state and record this application's table prescribes |
| MrcpVerif.Exit | app-unimrcp/app_mrcpverif.c:867-888 | the application always returns 0; VERIF_SID is the verifier channel's session id; the channel is released exactly when the session is dynamic, and nothing else in the session changes |
| RecogVerif.VendorFrom | app-unimrcp/app_recogverif.c:225-240 | `vsp` feeds both vendor-parameter lists, `vsprec` only the recognizer's, `vspver` only the verifier's; any other key feeds none |
| RecogVerif.Route | app-unimrcp/app_recogverif.c:180-298 | a key in any case yields the actions of its recognizer header, its verification session header, its vendor list(s) and its flag; a flag or header action comes only from its table; nothing exactly when the key is in no table and is not a vendor key |
| RecogVerif.VendorRoute | app-unimrcp/app_recogverif.c:225-230 | `vsp` in any case stores into the recognizer vendor list and then the verifier vendor list |
| RecogVerif.BufferHandlingRoute | app-unimrcp/app_recogverif.c:291-293 | `bufh` in any case only sets the buffer-handling flag and its parameter |
| RecogVerif.EntryRoute | app-unimrcp/app_recogverif.c:285-287 | `dse` in any case only sets the datastore-entry flag and its parameter |
| RecogVerif.NoEqualsInKey | app-unimrcp/app_recogverif.c:348-352 | a key that compares equal, ignoring case, to a lower-case key without '=' holds no '=' itself, so the name/value split of the token stops at the right place |
| RecogVerif.VendorParamToBoth | app-unimrcp/app_recogverif.c:225-230 | after any earlier tokens, `vsp=name=value` leaves value stored under name in both vendor lists |
| RecogVerif.VendorParamWithoutValueIgnored | app-unimrcp/app_recogverif.c:225-230 | a `vsp` value with no '=' changes no option at all |
| RecogVerif.ParseOptions | app-unimrcp/app_recogverif.c:301-368 | without a string nothing is set and 0 is returned; otherwise the quoted tokens are applied in order, 0 is returned exactly when Verification-Mode, Repository-URI and Voiceprint-Identifier are all set (-1 otherwise), and only on success is Ver-Buffer-Utterance set to "true" |
| RecogVerif.RouteNeverBuffers | app-unimrcp/app_recogverif.c:180-298 | no key sets Ver-Buffer-Utterance, fills the verifier header table or the recognizer header table through a vendor action |
| RecogVerif.ActsKeepAbsent | app-unimrcp/app_recogverif.c:180-298 | any run of such actions keeps Ver-Buffer-Utterance absent from the recognizer headers |
| RecogVerif.BufferUtteranceOnlyForced | app-unimrcp/app_recogverif.c:334-365 | whatever the tokens, Ver-Buffer-Utterance is absent after they are applied: the only way it is set is the forced "true" |
| RecogVerif.EntryOption | app-unimrcp/app_recogverif.c:285-287 | a last non-empty `dse=value` makes value the datastore entry of the session lifetime |
| RecogVerif.HasResultAgainstRequest | app-unimrcp/app_recogverif.c:1003-1004 | a result is expected exactly when there is no buffer handling or the request sent is VERIFY-FROM-BUFFER; never with a buffer-only request; and a buffer-handling value naming no operation sends a plain VERIFY yet expects no result |
| RecogVerif.FetchVerifResult | app-unimrcp/app_recogverif.c:910-1040 | when a result is expected the new record is that of taking all results from the verifier channel, and the cause and result are the verifier's where it has them and otherwise the recognition's (the result "" when neither has one); otherwise it fails exactly when the verifier channel has no record or no completion cause, and else gives the verifier's cause with the recognition's result (or "") |
| RecogVerif.Exit | app-unimrcp/app_recogverif.c:404-437 | always 0; RECOG_SID and VERIF_SID are the session ids of the channels present, and both channels are dropped exactly when the lifetime is dynamic, nothing else of the session changing |
| ResSpeech.NextSpeechIndex | res-speech-unimrcp/res_speech_unimrcp.c:158-163 | the next speech index stays within 16 bits and is the current one plus one modulo 2^16 |
| ResSpeech.SpeechIndexAfterIsSum | res-speech-unimrcp/res_speech_unimrcp.c:152-168 | after k calls of the numbering the index has moved on by k modulo 2^16 |
| ResSpeech.SpeechIdsDistinct | res-speech-unimrcp/res_speech_unimrcp.c:152-168 | the speech objects created by 65536 consecutive calls get distinct numbers, and so distinct "RSU-n" names; the 65537th reuses the first |
| ResSpeech.Engine.constructor | res-speech-unimrcp/res_speech_unimrcp.c:1341 | the engine starts at speech index 0 |
| ResSpeech.Engine.SpeechIdGet | res-speech-unimrcp/res_speech_unimrcp.c:152-168 | returns the current index and moves the engine to the next index, wrapping at APR_UINT16_MAX |
| ResSpeech.ParseGrammarPath | res-speech-unimrcp/res_speech_unimrcp.c:388-406 | a path without ':' is a file whose type is detected; a path with ':' that begins "builtin" is sent whole, inline, as a URI list |
| ResSpeech.StrSepSplitsAtFirst | res-speech-unimrcp/res_speech_unimrcp.c:388-405 | looking for ':' with strchr and splitting at it with strsep agree: the split fails exactly when the path holds no ':' |
| ResSpeech.GrammarPathRoundTrip | res-speech-unimrcp/res_speech_unimrcp.c:388-406 | `type:path`, for a type without ':' that begins with neither "builtin" nor "uri", gives back that type and the whole rest as the file path; `uri:x` sends x inline as a URI list; `builtin:x` sends the whole path inline |
| ResSpeech.DetectContentType | res-speech-unimrcp/res_speech_unimrcp.c:439-449 | application/x-jsgf exactly when "#JSGF" occurs; application/srgs exactly when "#ABNF" occurs without "#JSGF"; application/srgs+xml when neither occurs |
| ResSpeech.DetectContentTypeFindsMarkers | res-speech-unimrcp/res_speech_unimrcp.c:439-449 | a body holding "#JSGF" anywhere is JSGF; one holding "#ABNF" but no "#JSGF" is ABNF |
| ResSpeech.GrammarRequest | res-speech-unimrcp/res_speech_unimrcp.c:388-459 | the DEFINE-GRAMMAR request carries inline content as given; for a file there is a request exactly when the file could be read, carrying its content and the declared type or else the detected one |
| ResSpeech.SessionRefs | res-speech-unimrcp/res_speech_unimrcp.c:611-617 | each active grammar is referred to as "session:" followed by its name, in the same order |
| ResSpeech.JoinLfFront | res-speech-unimrcp/res_speech_unimrcp.c:606-621 | the newline-separated body built by appending can equally be read from its first line |
| ResSpeech.SplitLines | res-speech-unimrcp/res_speech_unimrcp.c:606-621 | splitting a body at '\n' always gives at least one line |
| ResSpeech.SplitJoinLf | res-speech-unimrcp/res_speech_unimrcp.c:606-621 | lines without '\n' joined with '\n' split back into exactly those lines |
| ResSpeech.RecognizeBody | res-speech-unimrcp/res_speech_unimrcp.c:606-621 | RECOGNIZE has no body exactly when no grammar is active |
| ResSpeech.SessionRefInjective | res-speech-unimrcp/res_speech_unimrcp.c:611-617 | distinct grammar names give distinct "session:" references |
| ResSpeech.SessionRefsNoLf | res-speech-unimrcp/res_speech_unimrcp.c:611-617 | references of names without '\n' hold no '\n' |
| ResSpeech.RecognizeBodyLists | res-speech-unimrcp/res_speech_unimrcp.c:606-621 | the body's lines are the references of the active grammars in the order the table hands them out, and a grammar is active exactly when its reference is one of the lines |
| ResSpeech.BuildRecognizeBody | res-speech-unimrcp/res_speech_unimrcp.c:606-621 | the loop over the active-grammar table builds exactly that body |
| ResSpeech.RequestSucceeded | res-speech-unimrcp/res_speech_unimrcp.c:1136-1180 | a request succeeds only if it was sent and a 2xx response arrived before the timeout |
| ResSpeech.StricterThanSuccess | res-speech-unimrcp/res_speech_unimrcp.c:1159-1163 | only 200 and 201 count as success here, so a 202 that the applications accept fails in the speech engine |
| ResSpeech.EventResult | res-speech-unimrcp/res_speech_unimrcp.c:789-821 | there is a result exactly when a RECOGNITION-COMPLETE is stored and carries Completion-Cause success, and the result is that event's body |
| ResSpeech.CompletionYieldsResult | res-speech-unimrcp/res_speech_unimrcp.c:913-926 | a RECOGNITION-COMPLETE yields a result exactly when it arrives while the speech object is not NOT_READY and reports success |
| ResSpeech.Speech.constructor | res-speech-unimrcp/res_speech_unimrcp.c:211-223 | a speech object starts with no active grammar, no recognition in progress, state NOT_READY, and no request, response, event or result |
| ResSpeech.Speech.MrcpRequestSend | res-speech-unimrcp/res_speech_unimrcp.c:1136-1180 | the response that arrived is recorded when the request was sent, no request stays outstanding, and the verdict is RequestSucceeded |
| ResSpeech.Speech.Stop | res-speech-unimrcp/res_speech_unimrcp.c:320-355 | with no recognition in progress nothing changes and 0 is returned; otherwise 0 exactly when STOP was created and succeeded, which alone makes the object NOT_READY and ends the recognition; the stored event is dropped once STOP exists; the grammars and results are untouched |
| ResSpeech.Speech.StopIfInProgress | res-speech-unimrcp/res_speech_unimrcp.c:786-788 | STOP is issued only while a recognition is in progress, leaving StoppedAs's state, flag and event, StopResponse's response and no outstanding request once STOP exists; active set, quiet, results and the session-management exchange are kept |
| ResSpeech.Speech.ActivateGrammar | res-speech-unimrcp/res_speech_unimrcp.c:519-529 | returns 0 and adds the name to the active set |
| ResSpeech.Speech.DeactivateGrammar | res-speech-unimrcp/res_speech_unimrcp.c:532-543 | returns 0 and removes the name from the active set; a recognition in progress is stopped first with STOP's outcome (StoppedAs: NOT_READY and no longer in progress only after a successful STOP, the event dropped once STOP exists, STOP's response recorded), otherwise state, flag and event are untouched; quiet, results and the session-management request are kept |
| ResSpeech.Speech.UnloadGrammar | res-speech-unimrcp/res_speech_unimrcp.c:476-516 | a recognition in progress is stopped first with STOP's outcome (StoppedAs), then the name leaves the active set, and 0 is returned exactly when the DEFINE-GRAMMAR was created and succeeded, -1 otherwise; its response, when sent, replaces STOP's; quiet, results and the session-management request are kept |
| ResSpeech.Speech.Start | res-speech-unimrcp/res_speech_unimrcp.c:574-652 | a recognition in progress is stopped first; without RECOGNIZE the result is -1 with no body and STOP's outcome (StoppedAs) stands; once RECOGNIZE exists its body is RecognizeBody of the table's order (none exactly when no grammar is active) and the stored event is dropped; 0 exactly when it succeeded, which makes the object READY with recognition in progress, and on failure state and flag are what STOP left; RECOGNIZE's response, when sent, replaces STOP's, and no request stays outstanding once either message exists; active set, quiet, results and the session-management exchange are kept |
| ResSpeech.Speech.SendRecognize | res-speech-unimrcp/res_speech_unimrcp.c:586-652 | nothing changes and -1 is returned when RECOGNIZE cannot be created; otherwise its body is RecognizeBody of the order (none exactly when no grammar is active), the stored event is dropped, its response is recorded when sent, and 0 comes exactly with success, which alone makes the object READY and in progress |
| ResSpeech.Speech.OnMessageReceive | res-speech-unimrcp/res_speech_unimrcp.c:907-934 | a response is recorded only while a request is outstanding; RECOGNITION-COMPLETE ends the recognition and is kept with state DONE unless the object was NOT_READY, where it is dropped; START-OF-INPUT sets quiet; other events change nothing |
| ResSpeech.Speech.SmResponseSignal | res-speech-unimrcp/res_speech_unimrcp.c:832-849 | a session-management status is recorded only when it answers the request being awaited |
| ResSpeech.Speech.Get | res-speech-unimrcp/res_speech_unimrcp.c:780-828 | a recognition in progress is stopped first with STOP's outcome (StoppedAs, STOP's response recorded); the result is EventResult of the stored event left afterwards (of the event before the call when nothing was in progress); a result replaces the speech object's results and no result leaves them as they were; active set, quiet and the session-management exchange are kept |
| LegacyApp.VolumeValue | app-unimrcp/app_unimrcp.c:2628-2662 | a value starting with a digit or '.' is a numeric volume, one starting with '+' or '-' a relative one, and an empty value is refused |
| LegacyApp.RateValue | app-unimrcp/app_unimrcp.c:2663-2691 | a value starting with a digit or '.' is a relative rate (no sign accepted), and an empty value is refused |
| LegacyApp.SynthHeaderValue | app-unimrcp/app_unimrcp.c:2578-2721 | a gender is taken only when the value names it in any case; an age exactly when 0 < atoi < 1000 and a variant exactly when atoi > 0, as that number; kill-on-barge-in and load-lexicon are "true" in any case; voice name and language are taken as given; every other field is left untouched |
| LegacyApp.IntAtLeast | app-unimrcp/app_unimrcp.c:3129-3158 | an integer field takes atoi of the value exactly when it is at least the field's least value |
| LegacyApp.RecogHeaderValue | app-unimrcp/app_unimrcp.c:3108-3299 | n-best takes atoi exactly when it is positive, the timeouts and durations exactly when it is not negative; dtmf-term-char exactly when the value is one character; the flags are "true" in any case; text fields are taken as given, float fields kept as text; the other fields are left untouched |
| LegacyApp.UnsupportedRecogHeaders | app-unimrcp/app_unimrcp.c:3275-3297 | the fields this module never sets are exactly waveform-uri, completion-cause, failed-uri, failed-uri-cause, input-type, completion-reason, cancel-if-queue, recognizer-context-block, dtmf-buffer-time, interpret-text and ver-buffer-utterance |
| LegacyApp.GenderRoundTrip | app-unimrcp/app_unimrcp.c:2584-2597 | every gender name, in any case, is read back as that gender, and any value naming no gender is refused |
| LegacyApp.NumericFieldsRoundTrip | app-unimrcp/app_unimrcp.c:2598-2617 | decimal numbers are accepted as themselves exactly in each field's range: ages 1..999, variants and n-best from 1, timeouts from 0 |
| LegacyApp.NegativeTimeoutRefused | app-unimrcp/app_unimrcp.c:3139-3146 | a negative number is refused by every timeout and duration field |
| LegacyApp.SetParams | app-unimrcp/app_unimrcp.c:2724-2775 | the loop over the channel's parameters builds the same request as routing them one by one: skipped when name or value is empty, a typed header when the name is in the id map and the value valid, a vendor-specific pair otherwise |
| LegacyApp.VendorPairsExactly | app-unimrcp/app_unimrcp.c:3320-3350 | a pair is sent as vendor-specific exactly when it is one of the parameters, both its parts are non-empty and its name is not in the id map |
| LegacyApp.HeadersFromParams | app-unimrcp/app_unimrcp.c:3320-3350 | every header field set on the request comes from a parameter whose name maps to it and whose value the field accepts, with that value |
| LegacyApp.LastValidParamWins | app-unimrcp/app_unimrcp.c:2740-2760 | the last parameter valid for a field decides it, whatever invalid, skipped or unrelated parameters follow |
| LegacyApp.InvalidAgeKeepsHeader | app-unimrcp/app_unimrcp.c:2598-2607 | an out-of-range voice age leaves the whole synthesizer request as the earlier parameters made it |
| LegacyApp.UnknownParamIsVendorSpecific | app-unimrcp/app_unimrcp.c:3320-3350 | a recognizer parameter whose name is not in the map is appended unchanged to the vendor-specific pairs and sets no header |
| LegacyApp.OptionParams | app-unimrcp/app_unimrcp.c:4945-4986 | the parameters the MRCPRecog options set on the channel: at most one per table entry, each under a name of the table and with a non-empty value |
| LegacyApp.OptionParamPresent | app-unimrcp/app_unimrcp.c:4945-4986 | every option with a non-empty value is handed over under its table name |
| LegacyApp.UnmappedOptionIsVendorPair | app-unimrcp/app_unimrcp.c:4945-4986 | an option with a value whose parameter name is not in the recognizer map reaches the request as a vendor-specific pair |
| LegacyApp.MisnamedOptionsAreVendorPairs | app-unimrcp/app_unimrcp.c:4949-4952 | as written, for any options, a non-empty "iwu" goes out as the vendor pair ("input-wave-uri", value) and a non-empty "enm" as ("earlynomatch", value) |
| LegacyApp.OptionsNeverVendorSpecific | app-unimrcp/app_unimrcp.c:3924-3935 | with the names the recognizer map holds ("input-waveform-uri", "early-no-match"), for any options, no option goes out as a vendor-specific pair |
| LegacyApp.AcceptResult | app-unimrcp/app_unimrcp.c:3015-3063 | a result is accepted (0) exactly when none is held and the new one is non-empty, and then stored; otherwise -1 and nothing changes |
| LegacyApp.TakeResult | app-unimrcp/app_unimrcp.c:3066-3105 | a held result is handed out with 0 and the record cleared; else a pending start of input gives 1 and is cleared; else -1 with nothing changed |
| LegacyApp.ResultRoundTrip | app-unimrcp/app_unimrcp.c:3015-3105 | a result stored on an empty record is handed out once, unchanged, and the next get finds nothing |
| LegacyApp.ResultWriteOnce | app-unimrcp/app_unimrcp.c:3038-3045 | a second result is refused, leaving the record as is, until the first has been taken |
| LegacyApp.LegacyRecognizer.constructor | app-unimrcp/app_unimrcp.c:3015-3063 | recognizer data starts with no result and no start of input |
| LegacyApp.LegacyChannel.constructor | app-unimrcp/app_unimrcp.c:3015-3063 | a channel holds the recognizer data it is given, possibly none |
| LegacyApp.LegacyChannel.SetResults | app-unimrcp/app_unimrcp.c:3015-3063 | -1 without recognizer data; otherwise the status and new record are those of AcceptResult |
| LegacyApp.LegacyChannel.GetResults | app-unimrcp/app_unimrcp.c:3066-3105 | -1 and no result without recognizer data; otherwise the status, result and new record are those of TakeResult |
| LegacyApp.LegacyChannel.SetStartOfInput | app-unimrcp/app_unimrcp.c:2982-3012 | -1 without recognizer data; otherwise 0 with start of input set and the result untouched |
| LegacyApp.CompletionCauseText | app-unimrcp/app_unimrcp.c:3771-3786 | the text stored for a body-less RECOGNITION-COMPLETE fits the 512-byte cause buffer, plus the 256-byte URI buffer only when a waveform URI is present |
| LegacyApp.DigitsWithoutNulOrSeparator | app-unimrcp/app_unimrcp.c:3774 | the cause line holds no NUL and no separator, so it survives the copy and splits off intact |
| LegacyApp.UriWithoutNul | app-unimrcp/app_unimrcp.c:3776 | the waveform line of a URI without NUL holds no NUL |
| LegacyApp.CompletionResult | app-unimrcp/app_unimrcp.c:3760-3787 | an event with a body yields the body read up to its first NUL; one without a body yields the cause text |
| LegacyApp.CompletionCauseRoundTrip | app-unimrcp/app_unimrcp.c:3771-3786 | the cause text reads back: splitting at the separator gives "Completion-Cause: NNN" whose number is the cause, and the rest is "Waveform-URI: " plus the URI exactly when a URI is present |
| LegacyApp.StrToLogLevel | app-unimrcp/app_unimrcp.c:4045-4065 | a result other than DEBUG is a priority whose name matches the text in any case; DEBUG comes back only when no other priority's name matches, and always when no name matches at all |
| LegacyApp.UpperCaseMatch | app-unimrcp/app_unimrcp.c:4045-4065 | between upper-case names, matching in any case is equality, and folding the text first changes no match |
| LegacyApp.NamesUpperCase | app-unimrcp/app_unimrcp.c:4047-4062 | every priority name is upper case |
| LegacyApp.NameMatchDecides | app-unimrcp/app_unimrcp.c:4045-4064 | text equal to a priority's name ignoring case is read as exactly that priority |
| LegacyApp.LogLevelRoundTrip | app-unimrcp/app_unimrcp.c:4045-4065 | each priority's name, in upper or lower case, is read back as that priority |
| LegacyApp.LegacyCodecTable | app-unimrcp/app_unimrcp.c:4130-4254 | mu-law maps to PCMU, 1 byte per sample, ULAW; A-law to PCMA, 1, ALAW; every other format to L16, 2, SLINEAR |
| LegacyOptions.SynthTableValid | app-unimrcp/app_unimrcp.c:4298-4308 | every MRCPSynth option buffer has room for its terminator and every key is lower case |
| LegacyOptions.RecogTableValid | app-unimrcp/app_unimrcp.c:4658-4682 | every MRCPRecog option buffer has room for its terminator and every key is lower case |
| LegacyOptions.Pieces | app-unimrcp/app_unimrcp.c:4319-4396 | splitting the working buffer at '&' always gives at least one piece |
| LegacyOptions.ParsePieces | app-unimrcp/app_unimrcp.c:4326-4353 | each piece gives exactly one parsed key and value |
| LegacyOptions.OptionStaysInBuffers | app-unimrcp/app_unimrcp.c:4355-4388 | applying one parsed piece sets only keys of the table, each to a value shorter than its buffer |
| LegacyOptions.OptionsStayInBuffers | app-unimrcp/app_unimrcp.c:4319-4396 | applying any pieces in turn keeps every option set a table key whose value fits its buffer |
| LegacyOptions.LegacyOptionsInBuffers | app-unimrcp/app_unimrcp.c:4310-4396 | whatever the option string, the options it sets are table keys with values that fit their buffers |
| LegacyOptions.TrimmedWhole | app-unimrcp/app_unimrcp.c:617-636 | trimming text with no blank at either end gives it back unchanged |
| LegacyOptions.KeyValueSplit | app-unimrcp/app_unimrcp.c:4335-4339 | "key=value", with no '=' in the key, splits at its first '=' back into key and value |
| LegacyOptions.PieceParts | app-unimrcp/app_unimrcp.c:4326-4353 | a piece "key=value" whose key and value have no outer blanks reads back as the lower-cased key and the value |
| LegacyOptions.TableKeysFold | app-unimrcp/app_unimrcp.c:4355-4388 | matching a key with strcasecmp against a lower-case table key is the same as comparing the lower-cased key |
| LegacyOptions.PieceSetsOption | app-unimrcp/app_unimrcp.c:4326-4388 | a table key in any case with a value that fits its buffer sets exactly that option to that value |
| LegacyOptions.PieceWithoutValueIgnored | app-unimrcp/app_unimrcp.c:4334 | a piece with no '=' has no value and sets nothing |
| LegacyOptions.SetOptionsSnoc | app-unimrcp/app_unimrcp.c:4319-4396 | applying pieces and then one more is applying that piece to the result |
| LegacyOptions.LaterPieceWins | app-unimrcp/app_unimrcp.c:4319-4396 | a last piece for an option overrides every earlier piece for it and leaves the other options as they were |
| LegacyOptions.PiecesCons | app-unimrcp/app_unimrcp.c:4319-4323 | taking the piece before the first '&' off the buffer leaves exactly the pieces of the rest |
| LegacyOptions.SetOptionsCons | app-unimrcp/app_unimrcp.c:4319-4396 | applying a piece and then the rest is applying all of them |
| LegacyOptions.ParseOptions | app-unimrcp/app_unimrcp.c:4310-4396 | the loop that takes pieces off the front of the working buffer ends with the options of LegacyOptions, every one of them fitting its buffer |
| LegacyOptions.LegacyBargeIn | app-unimrcp/app_unimrcp.c:4816-4821 | barge-in is between 0 and 2: atoi of the option when it is in that range, 1 when the option is absent or out of range |
| LegacyOptions.BargeInLevels | app-unimrcp/app_unimrcp.c:4816-4821 | the levels 0, 1 and 2 written in decimal read back as themselves, and any larger number falls back to 1 |
| LegacyOptions.LegacyGrammarType | app-unimrcp/app_unimrcp.c:4998-5003 | the grammar is a URI exactly when it starts, after leading white space, with "http://", "https://" or "builtin:" followed by more text, and inline SRGS XML otherwise |
| LegacyOptions.BuiltinGrammarIsUri | app-unimrcp/app_unimrcp.c:4998-5003 | a built-in grammar name after any blanks is a URI, while the bare "builtin:" prefix is not |

## Left out

- The UniMRCP and APR library calls (session, channel and message creation, sending, resource and codec managers, memory pools) are foreign code. Whether a message could be created or sent, and which response or event arrived, are parameters of the methods.
- Threads, mutexes and condition-variable waits are concurrency. Each wait is modelled by what it observed afterwards, given as a parameter; the locking is not modelled.
- The timeout value of the speech-channel waits is ignored. A wait that times out is modelled only as "no response arrived".
- The `speech-channel-timeout-usec` setting is not kept by `Framework.Globals.LoadGeneral`. The field holding it is a `char *` that the defaults set to the integer 30000000 (ast_unimrcp_framework.c:79, 133) and that is used only as the wait timeout.
- Asterisk channel I/O is left out: frame reading and writing, file streams, `ast_waitfor` (its timeouts and `ms == 0` are not told apart), DSP silence detection, setting dialplan variables, and attaching or finding datastores. Whether a datastore could be attached or allocated is a parameter.
- The iteration order of APR hash tables is unspecified, so it is a parameter. This covers the grammar table, the active-grammar set, and the channel parameters that `*_set_params` walks; properties are stated for every order.
- NLSML, XML and JSON parsing (`result_parser.c`, libxml, `ast_json`) is external. Interpretations, instances and child elements are given as parsed sequences, and `nlsml_result_parse` is not part of this model.
- Floating point is not modelled. `atof` values (confidence, sensitivity, prosody numbers) are kept as their text, and scores and "%.2f" formatting are left out.
- Reading configuration files (`ast_config_load`) is not modelled. The parsed configuration is a map from categories to key/value maps.
- `atoi` is a decimal-prefix function without C `int` overflow, and `strcasecmp` is ASCII case folding.
- URI encoding of results (`ast_uri_encode_http`), `normalize_input_string` and the `determine_*` content-type helpers of the applications are not part of this model.
- Status strings and the dialplan variables that carry them are not modelled, except the completion-cause and session-id values the models return.
- `AST_DIGIT_ANY` comes from an Asterisk header that is not part of this model. It is taken as "0123456789#*ABCD".
- `SpeechChannel.TrimStr`: requires a non-blank character. `trimstr` indexes before the start of the string when it is empty or all blank (speech_channel.c:941-946), so those inputs have no defined result.
- The legacy option pieces of `app_unimrcp.c` are trimmed with the total `SpeechChannel.Trim`. The C `trimstr` (app_unimrcp.c:617-636) has no defined result on an empty or all-blank string, and three kinds of piece hand it one. A blank piece reads in the model as an empty piece that sets nothing. A piece with an empty key, such as "=v", sets nothing, because no option has an empty name. A piece with an empty value, such as "p=", sets its option to the empty string.
- `LegacyApp.CompletionCauseText`: does not model an overflow of the 512-byte buffer that `strncat` appends to. The bounds are stated and the round trip holds for URIs that fit.
- The separator of the completion text is ',' or '|' depending on the Asterisk version the module is built against. It is a parameter.
- The parameter-id lookup of `app_unimrcp.c` is case-sensitive, as the source's hash lookup is.
- `app_unimrcp.c` has its own copies of the audio FIFO, `trimstr`, `text_starts_with` and `grammar_type_to_mime`. They behave like the `audio_queue.c` and `speech_channel.c` functions, which are modelled once in `AudioQueue` and `SpeechChannel`.
- `codec_to_str`, `codec_to_bytes_per_sample` and `codec_to_format` of `app_unimrcp.c` are the `SpeechChannel` codec helpers. `LegacyApp.LegacyCodecTable` states their table.
- The SPEAK body and its header fields are not modelled: `SynthAndRecog.SynthChannelSpeak` takes whether the message could be made as a parameter. `determine_synth_content_type` is not part of this model, and its outcome is folded into that parameter.
- SynthAndRecog's recognizer-side handlers are not modelled separately, because they repeat the shared ones. These are the recognizer set/get-results functions (app_synthandrecog.c:573-669), `recog_on_message_receive` (911-992), the barge-in check (466-501) and `speech_on_message_receive` (294-308). They are modelled by `ChannelMethods` and `Dispatcher`.
- MRCPVerif's `verif_channel_set_results` and its input-timer request are the same as `ChannelMethods.ChannelSetResults` and `ChannelMethods.ChannelStartInputTimers`. Its strict getter is `MrcpVerif.GetResults`.
- `mrcpsynth_exit` and the exit of MRCPRecog return -1 exactly when the status is ERROR. That rule is `AppOptions.ExitCode`.
- `synthandrecog_prompt_play` logs `synth_channel->name` when the cursor is past the end, and that name may be NULL. The model returns no prompt there.
- `app_datastore_session_add` never initialises `verif_channel`, so the field holds whatever the allocation held. The model starts it as null.
- MRCPRecogVerif ignores the status of its own option parsing. The model returns that status and does not use it further.
- `res_speech_unimrcp.c` is only partly modelled. Left out are `uni_recog_sm_request_send`, the NLSML-to-Asterisk result builder, the media buffer written by `uni_recog_write`, the property loading, the grammar preloading and `uni_recog_dtmf`. The send-and-wait step of `uni_recog_load_grammar` is the shared `ResSpeech.Speech.MrcpRequestSend`.
- `ResSpeech.ParseGrammarPath`: the contract states the no-colon and "builtin" cases. The "uri" and `type:path` cases are stated by `ResSpeech.GrammarPathRoundTrip`.
- docker/tests and the headers under include/ are test scaffolding and compatibility macros. They are not part of this model.

## Findings

| source | as written | input that shows it | evidently intended | confidence | as-written member | corrected member |
|---|---|---|---|---|---|---|
| app-unimrcp/ast_unimrcp_framework.c:471-534 | `load_profiles` hands `process_profile_config` a profile pointer that is never assigned (NULL), and that function returns 1 for a NULL profile. So every profile parameter counts as claimed, no MIME-type override reaches the profile, and no parameter is reported unknown. | a profile holding `jsgf-mime-type=application/jsgf` and a misspelt key | the profile being loaded is handed over, so the override takes effect and the misspelt key is reported | high, not executed | Framework.AsWrittenIgnoresProfileParams | Framework.ProfileParamsSetMimes |
| app-unimrcp/ast_unimrcp_framework.c:679-683 | `max-connection-count` is parsed with `atoi` into an unsigned `apr_size_t`, and the default is applied only when the stored value is `<= 0` | `max-connection-count=-5` gives 2^64-5 connections instead of the default 120 | a setting that is not positive falls back to 120 | high, not executed | Framework.NegativeCountWraps | Framework.MaxConnectionCount |
| app-unimrcp/speech_channel.c:766-767 | `get_grammar_type` tests for `inline:` after skipping white space, but takes the content seven characters past the unskipped start | `"  inline:<grammar>…"` gives content `"e:<grammar>…"`, which matches no grammar format | the content starts after `inline:`, past the skipped white space | medium, not executed | SpeechChannel.InlineOffsetIgnoresSpace | SpeechChannel.InlineBodyExtracted |
| app-unimrcp/app_mrcprecog.c:1409 | a DTMF key interrupts when it is among the `i` digits or when `strcmp(digits, "any")` is non-zero. The digits are never "any" at that point, because "any" was replaced by all digits. | `i=12`, key `5`: recognition ends | only the listed digits interrupt | high, not executed | AppOptions.DtmfOtherKeyInterruptsAsWritten | AppOptions.DtmfFrame |
| app-unimrcp/app_unimrcp.c:4949-4952 | MRCPRecog hands its "iwu" option to the channel as "input-wave-uri" and its "enm" option as "earlynomatch". The recognizer parameter map (app_unimrcp.c:3924, 3935) holds "input-waveform-uri" and "early-no-match", so both go out as vendor-specific pairs and neither header is set | the option `iwu=http://host/in.wav` | the Input-Waveform-URI and Early-No-Match headers are set, as for every other option of the table | medium, not executed (a server may still honour the vendor-specific pairs) | LegacyApp.MisnamedOptionsAreVendorPairs | LegacyApp.OptionsNeverVendorSpecific |
