# battery_handyman in Dafny

A model of the decision-and-request engine of battery_handyman. The `BatteryHandyman` object reads
a battery reading (charging or not, percent left). It decides whether the charger must be switched
on or off, using two limits: `charged` and `low`. It then fills a URL template such as
`/power/{needs_charging}`, remaps the values through a configured table, and sends one HTTP
request to a remote switch. After each check it schedules the next one.

The project has these modules:

- `Wrappers`: Option, Result and Outcome (a result without a value).
- `Constants`: the values of `battery_handyman/constants.py` that the engine uses.
- `Text`: the brace scanner the pattern and `str.format` share, and decimal printing.
- `Values`: the scalar values in request data and their Python `str()`.
- `Util`: the placeholder extractor `parse_request_data_key_list`. This is the regular-expression
  scan `\{([^}]+)\}` (`re.findall`) followed by the whitelist filter. The module also has
  `BatteryInfo` and the "do not toggle" signal.
- `TemplateFormat`: the part of Python's `str.format(**data)` that templates use.
- `Config`: the constructor as a function of its three configuration sections, and the
  configuration-dictionary round trip.
- `Requester`: `extract_request_data`, the remapping, the request line and the status
  classification, as one pure pipeline `SendRequest`.
- `Sched`: the event queue of Python's `sched.scheduler`, as the engine uses it. Entries are ordered
  by deadline, then priority, then entry number. The module has `enter`, `cancel`, `empty`, and the
  step of `run` that takes off the next due entry.
- `Handyman`: the class `BatteryHandyman`. It has the fields the setters update, setter methods that
  return success or failure, the constructor, the in-place remapping loop, `send_request`, and the
  check cycle on its scheduler.
- `Scenarios`: the `send_request` cases of the class's tests, proved for every configuration of the
  same shape.

The sensor reading and the HTTP response are parameters:

- `BatteryInfo` stands for what `psutil` reports.
- `Response` stands for only what `requests.request` does: a status code, a `ConnectionError`, or
  another request exception.
- The clock reading is a parameter (`now`) of the scheduling methods.

## Where the code and its documented design differ

The model follows the code:

- `perform_check` catches only `DoNotToogleChargingException`. Any other exception from
  `send_request` escapes before the next check is entered, so the cycle stops. Examples are the
  `TypeError` of an empty template, the `KeyError` of an unknown placeholder, and a request error
  other than `ConnectionError`. `BatteryHandyman.PerformCheck` states this: an entry is added
  exactly when the result is not `Raised`.
- `sched.enter` takes its deadline from the clock at the moment of entering. The next deadline is
  therefore the time at which the check finished plus `check_interval` (fixed delay), not a
  fixed-rate cycle.
- `constants.py` has no `CHECK_INTERVAL_IN_SECONDS_DEFAULT`. See "## Findings".

## Model

| member | source | states |
|---|---|---|
| Util.NewDoNotToogleCharging | battery_handyman/util.py:49-56 | without an argument the signal carries "Charging must not to be toogled"; otherwise it carries the given message |
| Util.MatchEndAtStart | battery_handyman/constants.py:19 | a result marks a match of `\{([^}]+)\}` at position 0 that ends at the first '}' after the '{' |
| Util.FindAll | battery_handyman/util.py:41 | every group found is non-empty and contains no '}' |
| Util.FindAllSound | battery_handyman/constants.py:19 | every group is the text between the braces of some match of the pattern in the template |
| Util.FindAllComplete | battery_handyman/constants.py:19 | wherever the pattern can match, at least one group is found |
| Util.FindAllEmptyIff | battery_handyman/util.py:41 | no group is found exactly when the pattern matches nowhere |
| Util.FindAllSkipsPlainPrefix | battery_handyman/util.py:41 | text without '{' in front of a template adds no group and does not change the groups behind it |
| Util.FindAllPlaceholder | battery_handyman/util.py:41 | `{name}` at the front yields name, and the scan resumes behind its '}' |
| Util.FilterValid | battery_handyman/util.py:42-45 | the kept keys are whitelisted, appear in the input's order, and each whitelisted key keeps its number of occurrences |
| Util.ParseRequestDataKeyList | battery_handyman/util.py:39-46 | the key list is exactly the whitelisted groups of the scan, in order, with duplicates |
| Util.NeedsChargingKeyIff | battery_handyman/util.py:42-45 | needs_charging is in the key list exactly when the scan finds that group |
| Util.NeedsChargingPlaceholder | battery_handyman/util.py:41 | the template "{needs_charging}" yields exactly that group |
| Util.FilterNeedsCharging | battery_handyman/util.py:42-45 | the whitelist keeps needs_charging |
| Util.ParsePlainPrefixThenNeedsCharging | battery_handyman/util.py:39-46 | a '{'-free path followed by `{needs_charging}` yields ["needs_charging"] |
| Util.ParseExamples | tests/test_util.py:59-68 | "/power/{needs_charging}" and "/cm?cmnd=Power%20{needs_charging}" both yield ["needs_charging"] |
| Text.NextClose | battery_handyman/constants.py:19 | the result is the first '}' at or after the position, or no '}' follows |
| Text.NextCloseAt | battery_handyman/constants.py:19 | a '}' with no '}' before it from the position on is the one found |
| Text.NatToString | battery_handyman/battery_handyman_class.py:236 | the decimal form is canonical: non-empty, made of digits, and starting with '0' only when it is "0", so only 0 renders with a leading '0' |
| Text.IntToString | battery_handyman/battery_handyman_class.py:236 | str() of an int is non-empty: the decimal form of n for n >= 0, and '-' followed by the decimal form of -n for n < 0 |
| Text.DecimalRoundTrip | battery_handyman/battery_handyman_class.py:236 | reading back the decimal form of n gives n |
| Text.CanonicalUnique | battery_handyman/battery_handyman_class.py:236 | a canonical digit string is the rendering of the number it denotes, so the rendering is the only canonical form of n |
| Text.NonNegativeIntToString | battery_handyman/battery_handyman_class.py:236 | str() of n >= 0 is canonical and reads back as n |
| Text.NegativeIntToString | battery_handyman/battery_handyman_class.py:236 | str() of n < 0 is '-' followed by the canonical form of -n |
| Values.ScalarToString | battery_handyman/battery_handyman_class.py:236 | str() of a string is the string; of a boolean "True" or "False"; of an int its IntToString form, which for n >= 0 is canonical and reads back as n, and for n < 0 is '-' followed by the canonical form of -n |
| TemplateFormat.Format | battery_handyman/battery_handyman_class.py:236 | a KeyError names a key the data lacks; an IndexError names an automatic or numbered field |
| TemplateFormat.FormatPlainPrefix | battery_handyman/battery_handyman_class.py:236 | brace-free text at the front of a template is copied, and the rest formats as it would alone |
| TemplateFormat.FormatPlain | battery_handyman/battery_handyman_class.py:236 | a brace-free template formats to itself, whatever the data |
| TemplateFormat.FormatEscapes | battery_handyman/battery_handyman_class.py:236 | "{{" and "}}" each yield one brace and the rest formats as it would alone; a lone '}', or a '{' that no '}' closes, is the ValueError |
| TemplateFormat.FormatPositional | battery_handyman/battery_handyman_class.py:236 | an automatic or numbered field ("{}", "{0}") is the IndexError naming it, since format gets no positional arguments |
| TemplateFormat.FormatBraceInName | battery_handyman/battery_handyman_class.py:236 | a '{' inside a field name is the ValueError |
| TemplateFormat.FormatField | battery_handyman/battery_handyman_class.py:236 | a named field becomes str() of its value, or fails with KeyError when the data has no such key |
| TemplateFormat.SinglePlaceholderTemplate | battery_handyman/battery_handyman_class.py:236 | for one placeholder between brace-free texts, the extractor finds exactly it, and formatting succeeds exactly when the data has it, inserting its str() |
| Config.TrimTrailingSlashes | battery_handyman/battery_handyman_class.py:94-95 | the result is a prefix of the address, does not end in '/', and only '/' was removed |
| Config.TrimTrailingSlashesUnique | battery_handyman/battery_handyman_class.py:94-95 | those three properties determine the stripped address |
| Config.TrimTrailingSlashesKeeps | battery_handyman/battery_handyman_class.py:94-95 | an address not ending in '/' is kept as it is |
| Config.KeyListFor | battery_handyman/battery_handyman_class.py:342-347 | no key list for the empty template, otherwise the parsed key list |
| Config.ReadLimits | battery_handyman/battery_handyman_class.py:97-109 | succeeds exactly when each limit is absent or an integer in [0, 100] and the interval is an integer, or absent while the default exists; each stored value is the configured integer, or 90, 40 and the default when absent; a charged limit out of range fails with the setter's error naming battery_limit_charged and the value, then likewise for low; a missing interval without the default constant fails on that name |
| Config.ReadRequest | battery_handyman/battery_handyman_class.py:111-114 | succeeds exactly when the template and the method are strings and the mapping is a mapping; the stored template, method and mapping are the configured ones; a non-string template fails first, then a missing request_method |
| Config.InitWith | battery_handyman/battery_handyman_class.py:70-116 | no remote section is a TypeError and a missing remote_address an AttributeError; on success the limits are in range and are ReadLimits' values, missing limits or interval take 90, 40 and the default, the address is the input with its trailing '/' removed, and the template, method and mapping are the configured ones; with a complete remote section construction succeeds exactly when ReadLimits does, with its error |
| Config.InitAsWritten | battery_handyman/battery_handyman_class.py:106-109 | without a check interval construction always fails; with a complete remote section and acceptable limits it fails on the undefined default constant |
| Config.Init | battery_handyman/battery_handyman_class.py:70-116 | with a configured check interval it agrees with the constructor as written; without one, a successful construction has the default interval |
| Config.InitDefaults | battery_handyman/battery_handyman_class.py:97-109 | without battery and check sections, the configuration has 90, 40 and the default interval, beside the remote fields |
| Config.InitRejectsInvalidLimit | battery_handyman/battery_handyman_class.py:97-100 | a charged limit outside [0, 100] fails construction with the setter's error naming battery_limit_charged and the value |
| Config.InitRejectsInvalidLow | battery_handyman/battery_handyman_class.py:101-104 | with an acceptable charged limit, a low limit outside [0, 100] fails construction with the setter's error naming battery_limit_low and the value |
| Config.MissingCheckIntervalRejectedAsWritten | battery_handyman/battery_handyman_class.py:106-109 | as written, a configuration without check_config fails on the undefined default constant |
| Config.MissingCheckIntervalUsesDefault | battery_handyman/battery_handyman_class.py:106-109 | as intended, the same configuration is built with the default interval |
| Config.ToConfigDict | battery_handyman/battery_handyman_class.py:158-177 | the dictionary has exactly the three sections, holding exactly the stored limits, interval, address, mapping, method and template |
| Config.FromConfigDict | battery_handyman/battery_handyman_class.py:137-156 | an unknown section name fails; otherwise it succeeds exactly when the constructor does, with the same configuration; every failure is the one ValueError |
| Config.ConfigDictRoundTrip | battery_handyman/battery_handyman_class.py:137-177 | re-initialising from the produced dictionary gives back the configuration, exactly when its limits are valid and its address has no trailing '/' |
| Config.ConfigDictStable | battery_handyman/battery_handyman_class.py:137-177 | the dictionary produced again equals the one re-initialised from |
| Config.InitRoundTrips | battery_handyman/battery_handyman_class.py:80-116 | every configuration construction yields is one the round trip reproduces |
| Sched.AtMostOrder | battery_handyman/battery_handyman_class.py:275-277 | the queue order is total and transitive |
| Sched.Insert | battery_handyman/battery_handyman_class.py:275-277 | entering makes the queue one entry longer, and the new entry is in it |
| Sched.InsertPermutes | battery_handyman/battery_handyman_class.py:275-277 | entering adds exactly the new entry to the pending ones |
| Sched.InsertSorted | battery_handyman/battery_handyman_class.py:275-277 | entering keeps the queue ordered |
| Sched.SortedCons | battery_handyman/battery_handyman_class.py:275-277 | an entry no later than every entry of an ordered queue can be put in front of it |
| Sched.SortedHeadBelowTail | battery_handyman/battery_handyman_class.py:282 | the head of an ordered queue comes no later than any entry behind it |
| Sched.Remove | battery_handyman/battery_handyman_class.py:287-288 | cancelling removes one occurrence of the entry, and nothing when it is not pending |
| Sched.RemoveSorted | battery_handyman/battery_handyman_class.py:287-288 | cancelling keeps the queue ordered |
| Sched.SortedHeadEarliest | battery_handyman/battery_handyman_class.py:282 | the head of an ordered queue comes no later than any other entry |
| Sched.RemoveHead | battery_handyman/battery_handyman_class.py:287-288 | cancelling the head of an ordered queue leaves its tail |
| Sched.Scheduler.constructor | battery_handyman/battery_handyman_class.py:116 | a new scheduler has an empty queue |
| Sched.Scheduler.Enter | battery_handyman/battery_handyman_class.py:275-277 | the entry is due at now plus the delay, carries the next entry number, and is inserted in order |
| Sched.Scheduler.Cancel | battery_handyman/battery_handyman_class.py:288 | the entry leaves the queue; an entry that is not pending is a ValueError and changes nothing |
| Sched.Scheduler.Empty | battery_handyman/battery_handyman_class.py:286 | true exactly when nothing is pending |
| Sched.Scheduler.PopDue | battery_handyman/battery_handyman_class.py:282 | the head is taken off exactly when its deadline has come; otherwise the queue is unchanged |
| Requester.ExtractRequestData | battery_handyman/battery_handyman_class.py:199-218 | no key list is a TypeError; without needs_charging the data is empty; with it, charging above `charged` gives False, discharging below `low` gives True, each exactly in its case, and exactly the remaining cases are "do not toggle" with the fixed message |
| Requester.DecisionBoundaries | battery_handyman/battery_handyman_class.py:205-217 | exactly at either limit nothing is toggled; one step past it the charger is switched |
| Requester.ExtractedKeysAreTemplateKeys | battery_handyman/battery_handyman_class.py:204-206 | the extracted data only has keys of the key list |
| Requester.Remapped | battery_handyman/battery_handyman_class.py:220-226 | the keys stay the same; a value changes exactly when both its key and its value are in the mapping, to the mapped value |
| Requester.RemappedWithoutEntries | battery_handyman/battery_handyman_class.py:220-226 | a mapping without the data's keys changes nothing |
| Requester.RequestLine | battery_handyman/battery_handyman_class.py:235-237 | the request line is the address followed by the formatted template, and fails exactly when formatting fails |
| Requester.Classify | battery_handyman/battery_handyman_class.py:251-261 | a status up to 399 is a success, any other an error, and the status is kept |
| Requester.SendRequest | battery_handyman/battery_handyman_class.py:228-261 | an empty template raises TypeError; "do not toggle" carries the fixed message; when data is extracted and the template formats, the request is sent with the configured method to exactly that line, unless the request raises, and an answer is classified by its status and a ConnectionError is a transport failure; a formatting error is raised as that error |
| Requester.SentRequestLine | battery_handyman/battery_handyman_class.py:233-243 | a request is sent with the configured method to the address followed by the template filled with the remapped data |
| Requester.NotSentIff | battery_handyman/battery_handyman_class.py:204-217 | nothing is sent exactly when the template has a needs_charging group and the policy keeps still |
| Requester.ResponseOnlyClassifies | battery_handyman/battery_handyman_class.py:242-261 | once a request is sent, every status sends the same line with Classify of that status; ConnectionError sends it as a transport failure; other request errors escape |
| Scenarios.PowerRequestLine | tests/test_battery_handyman_class.py:59-127 | True is mapped to "1" and False to "0" behind the address and path |
| Scenarios.PowerKeyList | tests/test_battery_handyman_class.py:59-127 | a path followed by `{needs_charging}` has exactly that key |
| Scenarios.PowerScenarios | tests/test_battery_handyman_class.py:59-127 | discharged sends "/power/1", charged sends "/power/0", the two middle cases send nothing, 404 is a rejected request and ConnectionError only a transport failure |
| Scenarios.DefaultTemplateScenarios | tests/test_battery_handyman_class.py:59-127 | with "/power/{needs_charging}" behind an address configured with a trailing '/', the request goes to the host plus "/power/1" or "/power/0" |
| Scenarios.SingleFieldRequestLine | battery_handyman/battery_handyman_class.py:235-237 | a template of one named placeholder after a brace-free path gives the address, the path and str() of the value |
| Scenarios.UnmappedRequestLine | battery_handyman/battery_handyman_class.py:220-237 | with an empty request_data_mapping the line ends in "True" or "False", as str() renders the decision |
| Scenarios.UnmappedScenarios | battery_handyman/battery_handyman_class.py:199-243 | unmapped, a discharged battery sends path + "True" and a charged one path + "False" |
| Scenarios.EmptyTemplateRaises | battery_handyman/battery_handyman_class.py:206 | an empty template makes send_request raise TypeError |
| Scenarios.UnknownPlaceholderRaises | battery_handyman/battery_handyman_class.py:228-237 | for every reading and every response, a single placeholder other than needs_charging makes send_request raise the KeyError naming it |
| Scenarios.UnknownPlaceholderKeyList | battery_handyman/util.py:39-46 | such a template leaves needs_charging out of the key list |
| Scenarios.UnknownPlaceholderFormat | battery_handyman/battery_handyman_class.py:236 | formatting such a template with empty data is the KeyError naming the placeholder |
| Handyman.StripTrailingSlashes | battery_handyman/battery_handyman_class.py:94-95 | the loop's result is a prefix without a trailing '/', only '/' is removed, and it equals TrimTrailingSlashes |
| Handyman.BatteryHandyman.constructor | battery_handyman/battery_handyman_class.py:116 | a fresh object with its own empty scheduler |
| Handyman.BatteryHandyman.SetBatteryLimitCharged | battery_handyman/battery_handyman_class.py:53-65 | a value in [0, 100] is stored exactly; any other is a ValueError naming the property and the value, and the field is unchanged |
| Handyman.BatteryHandyman.SetBatteryLimitLow | battery_handyman/battery_handyman_class.py:53-65 | likewise for the low limit |
| Handyman.BatteryHandyman.SetCheckInterval | battery_handyman/battery_handyman_class.py:320-323 | stores the value |
| Handyman.BatteryHandyman.SetRemoteAddress | battery_handyman/battery_handyman_class.py:330-333 | stores the value |
| Handyman.BatteryHandyman.SetRequestTemplate | battery_handyman/battery_handyman_class.py:340-347 | stores the template and re-derives the key list: none when empty, the parsed list otherwise |
| Handyman.BatteryHandyman.SetRequestMethod | battery_handyman/battery_handyman_class.py:354-357 | stores the value |
| Handyman.BatteryHandyman.SetRequestDataMapping | battery_handyman/battery_handyman_class.py:364-367 | stores the value |
| Handyman.BatteryHandyman.AssignLimits | battery_handyman/battery_handyman_class.py:97-109 | the limit and interval setters succeed exactly when ReadLimits does, with its error or its values |
| Handyman.BatteryHandyman.AssignRequest | battery_handyman/battery_handyman_class.py:111-114 | the template, method and mapping setters succeed exactly when ReadRequest does, with its error or its values |
| Handyman.BatteryHandyman.Create | battery_handyman/battery_handyman_class.py:70-116 | construction succeeds exactly when Init does, with the same error; the new object keeps its invariant, holds Init's configuration, and has an empty queue |
| Handyman.BatteryHandyman.FromConfigDictMapping | battery_handyman/battery_handyman_class.py:137-156 | succeeds exactly when FromConfigDict does, holding its configuration; every failure is the one ValueError |
| Handyman.BatteryHandyman.ToConfigDictMapping | battery_handyman/battery_handyman_class.py:158-177 | the three sections, holding exactly the object's stored fields; it is ToConfigDict of the stored configuration |
| Handyman.BatteryHandyman.ReinitialisingReproducesMapping | battery_handyman/battery_handyman_class.py:137-177 | re-initialising from the object's dictionary reproduces its configuration and the same dictionary |
| Handyman.BatteryHandyman.MapRequestDataInplace | battery_handyman/battery_handyman_class.py:220-226 | the loop over the keys yields Remapped of the data |
| Handyman.BatteryHandyman.SendRequest | battery_handyman/battery_handyman_class.py:228-261 | the method's outcome is the pure pipeline's on the stored configuration |
| Handyman.BatteryHandyman.ScheduleNewCheck | battery_handyman/battery_handyman_class.py:273-277 | one entry with priority 1 is inserted, due at now, or now plus check_interval after the first |
| Handyman.BatteryHandyman.PerformCheck | battery_handyman/battery_handyman_class.py:264-271 | sends on the reading; the next check is entered check_interval later, after "do not toggle" too, and is not entered when another exception escapes |
| Handyman.BatteryHandyman.Start | battery_handyman/battery_handyman_class.py:279-282 | enqueues one entry with delay 0 |
| Handyman.BatteryHandyman.RunDue | battery_handyman/battery_handyman_class.py:282 | a due head is taken off and checked, and the queue is its tail with the next check inserted, the entry counter advancing by one; when the check raises, the queue is the tail and the counter is unchanged; with no due entry neither the queue nor the counter changes |
| Handyman.BatteryHandyman.Stop | battery_handyman/battery_handyman_class.py:284-288 | afterwards the queue is empty and the entry counter is unchanged; on an empty queue nothing changes |

## Findings

| source | as written | input that shows it | evidently intended | confidence | as-written member | corrected member |
|---|---|---|---|---|---|---|
| battery_handyman/battery_handyman_class.py:106-109 | when `check_config` or its `check_interval` is missing, the handler reads `constants.CHECK_INTERVAL_IN_SECONDS_DEFAULT`, which `constants.py` does not define, so `__init__` raises AttributeError (and `init_from_config_dict_mapping` raises its ValueError) | a configuration with a complete `remote_request_config` and no `check_config` | the interval falls back to a default interval | not executed | Config.MissingCheckIntervalRejectedAsWritten | Config.MissingCheckIntervalUsesDefault |

The as-written constructor is `Config.InitAsWritten`, which has no default. The corrected one is
`Config.Init`, which takes the default interval as a parameter because its value is not defined
anywhere. The rest of the model uses `Config.Init`.

## Left out

- Network I/O: `requests.request` is replaced by the `Response` parameter, and logging is left out.
- `get_battery_info` and `psutil`: the reading is the `BatteryInfo` parameter.
- YAML files, `from_configuration_file`, `to_configuration_file` and the PyYAML tag functions. These are library serialisation; only the dictionary round trip is modelled.
- The real-time side of `sched.scheduler(time.time, time.sleep)`: sleeping, blocking and non-blocking `run`. `RunDue` is one step of `run` with the clock readings as parameters.
- `cli.py`, `main.py`, `__main__.py` and `setup.py`. These cover argument parsing, process entry and packaging.
- `_skip_send_request`: every constructed object has a remote section, so the flag is always False, and `send_request` and `to_config_dict_mapping` always take the remote path.
- Handyman.BatteryHandyman.MapRequestDataInplace returns the remapped dictionary instead of updating the caller's dictionary in place. Aliasing of that dictionary is not modelled.
- Config.InitWith restricts the kinds of configured values, and Python differs as follows:
  - The address must be a string. Python fails on `endswith` for a non-string too.
  - The limits must be integers. Python raises TypeError at the setter's comparison (battery_handyman_class.py:53-65) for a non-number. It accepts a float in [0, 100], which the model does not represent.
  - The template must be a string. For a non-empty non-string, Python raises TypeError in `re.findall` (util.py:41). A falsy non-string, such as the None of a YAML `request_template:` left blank, skips parsing at the setter's `if value:` (battery_handyman_class.py:343-345). Python then builds the object, and every `send_request` raises TypeError on the None key list. The model rejects such a template with WrongType at construction.
  - `check_interval` must be an integer. Python stores any value. A float such as 0.5 never fails, because `sched.enter` accepts it. A non-number fails only after the first check, when the next one is entered with that delay (battery_handyman_class.py:275-276). The first check is entered with delay 0.
  - `request_method` must be a string. Python stores any value. A non-string fails only when the request is made, inside `requests.request` (battery_handyman_class.py:242). That exception is not a ConnectionError, so it escapes `send_request`.
  - `request_data_mapping` must be a mapping of scalars. Python stores any value, and the remapping (battery_handyman_class.py:222-226) only tests `request_arg in` that value. For a string or a list that is a substring or membership test. It fails only when the key is found there, at the indexing that follows. A None mapping fails at the test as soon as the request data is not empty.
- The clock is an integer in the model. `time.time()` in Python is a float.
- Config.ConfigDict cannot express a section that is not a mapping, such as a YAML section left empty (None). Python rejects such a section in `ConfigSectionNamespace(**section)` with a TypeError, which battery_handyman_class.py:137-156 turns into the one ValueError.
- Sched models the queue of the newer `sched` module, whose entries carry an entry number that breaks ties. In the Python versions setup.py declares (3.7 to 3.9), an event compares and tests equal by time and priority only. `cancel`'s `list.remove` may then remove another entry with the same time and priority. All entries of this engine are the same check, so the difference does not change what runs.
- Handyman.BatteryHandyman.Create discards the object on failure. On an existing object, Python keeps the properties assigned before the error.
- Values.ScalarToString models booleans, ints and strings only. Python's equality between `True` and `1` as dictionary keys is not modelled, so `Bool` and `Int` keys are distinct.
- TemplateFormat.Format treats a conversion (`!r`), a format spec (`:x`) or an attribute or index (`a.b`, `a[0]`) as part of the key name. Nested fields in a format spec are a ValueError.
- Util.NewDoNotToogleCharging takes at most one argument. The text of an exception built from several arguments is not modelled.
- `common_property_setter_routine` only logs, so the setters are modelled without it.
