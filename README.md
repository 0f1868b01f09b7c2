# SensingTroops in Dafny

SensingTroops is a three-tier sensing network, and it exists in several
generations. A commander sits above leaders, and a leader sits above
soldiers. The oldest generation calls them captain, sergeant and private. A
recruiter holds the organisation chart: which leader heads which squad, and
which commander heads which troop. Every tier keeps a dictionary of
subordinate records keyed by id. Each tier accepts joins, answers lookups,
and caches the reports or works sent up to it. It also passes jobs down the
chain: campaigns become missions, missions become orders, and orders set up
sensors.

This project models the in-memory core of every generation and proves what
each operation promises. It covers these parts:

- the record parsers (`make`, and `Record(**dict)`), including their
  TypeError path;
- the registries of the model classes, the REST classes, the xmlrpc classes
  and the HTTP sergeant and captain;
- campaign, mission and operation fan-out. Remote calls are appended to an
  outbox, so "who was sent what" can be stated;
- the order bookkeeping of the privates and soldiers;
- the organisation-chart lookups of the three recruiters;
- the request contract: `json_input`, `get_dict` and each Flask handler's
  status-code decision, including the If-None-Match / 304 logic of the
  leader controller (section 3.2 of RFC 7232);
- the REST client's response classifier.

Python dictionaries are modelled as insertion-ordered association lists
(`OrderedDicts`). Storing under an existing key keeps its position, and
storing under a new key appends it. A class whose fields the source updates
in place is a Dafny `class`. Its `seq` and `map` fields are reassigned by
methods with `modifies` clauses. Each loop of the source is a method with
invariants, proved against a specification function.

The code is modelled as written, including these behaviours that look
unintended:

- The intake guards of `model/commander.py:92-96` and
  `model/leader.py:87-91` are inverted. A report or work from a registered
  subordinate is refused, and one from a stranger is cached.
- The troop-commander route of `troops/recruiter.py:237-241` searches the
  squads with `get_squad_leader`/`resolve_leader`, so it never consults the
  troop table (`TroopsRecruiter.TroopRouteIgnoresTroops`).
- `GET /missions` in `controller/leader.py` calls `values()` on a list. It
  therefore always answers an internal error (`ControllerLeader.GetMissions`).
- The ETag check strips one character from each end of the whole header. A
  `*` or a list of tags therefore never revalidates
  (`ControllerLeader.StarNeverRevalidates`,
  `ControllerLeader.TagListNeverRevalidates`).
- `get_id` concatenates purpose and place without a separator, so different
  pairs can share an id (`JobInfo.SplitCollision`).
- `get_squad_leader` and `get_troop_commander` of `troops/recruiter.py`
  filter the whole list, so a malformed entry after the first match still
  raises (`OrgCharts.FilterRaisesAfterMatch`). `model/recruiter.py` returns at
  the first match.

## Model

| member | source | states |
|---|---|---|
| OrderedDicts.Lookup | model/commander.py:54 | a key is found exactly when it is one of the dictionary's keys |
| OrderedDicts.Put | model/commander.py:89 | `d[k] = v`: k then holds v, every other key keeps its value, and the key order is kept, a new key going last |
| OrderedDicts.PutValid | model/commander.py:89 | assignment keeps each key once |
| OrderedDicts.PutNew | model/commander.py:89 | assigning a new key appends the entry at the end |
| OrderedDicts.PutExisting | rpc_impl/recruiter.py:21 | assigning an existing key replaces its value where it stands |
| OrderedDicts.PutTwice | rpc_impl/leader.py:26 | assigning the same value twice is the same as assigning it once |
| OrderedDicts.PutSame | rpc_impl/leader.py:44-46 | assigning a key its own value changes nothing |
| OrderedDicts.Remove | rpc_impl/troops/soldier.py:61 | `del d[k]`: k is gone, every other key keeps its value, and no entry is new |
| OrderedDicts.RemoveValid | rpc_impl/troops/soldier.py:61 | deletion keeps each key once |
| OrderedDicts.RemoveShrinks | rpc_impl/troops/soldier.py:61 | deleting a present key removes exactly one entry |
| OrderedDicts.RemoveAbsent | rpc_impl/troops/soldier.py:61 | deleting an absent key changes nothing |
| OrderedDicts.PutAllLookup | model/recruiter.py:34-42 | after a loop of assignments a key holds the value of its last assignment, or its earlier value when it was not assigned |
| OrderedDicts.PutAllValid | model/recruiter.py:34-42 | a loop of assignments keeps each key once |
| ActorInfo.MakeAll | model/actor_info.py:41 | the list comprehension succeeds exactly when every element parses, gives the parsed elements one for one, and otherwise raises the error of some element |
| ActorInfo.MakeEach | model/actor_info.py:41 | a comprehension over a value succeeds only when the value is iterable and every element it yields parses |
| ActorInfo.SoldierInfoMake | model/actor_info.py:34-44 | SoldierInfo.make succeeds exactly when id, name, weapons and orders are present and every order parses, builds the soldier from those fields, and raises only TypeError |
| ActorInfo.LeaderInfoMake | model/actor_info.py:76-87 | LeaderInfo.make succeeds exactly when id, name, endpoint, subordinates and missions are present and every mission parses, builds the leader from them, and raises only TypeError |
| ActorInfo.CommanderInfoMake | model/actor_info.py:119-130 | CommanderInfo.make succeeds exactly when id, name, endpoint, subordinates and campaigns are present and every campaign parses, builds the commander from them, and raises only TypeError |
| ActorInfo.TypeErrorOf | model/actor_info.py:43-44 | `except KeyError: raise TypeError` keeps a success and turns every failure into TypeError |
| ActorInfo.SoldierOrdersElementwise | model/actor_info.py:41 | a parsed soldier's orders are the parsed elements of the posted list, one for one and in order |
| ActorInfo.OrdersFromNonLists | model/actor_info.py:41 | orders given as an empty string or empty object parse as no orders, a non-empty string or object fails, and null raises TypeError |
| JobInfo.Arg | model/job_info.py:26-33 | `source[k]` inside make: the field when present, TypeError when missing or when the source is not an object |
| JobInfo.RequirementMake | model/job_info.py:25-33 | Requirement.make succeeds exactly when values and trigger are present, builds the requirement from them, and raises only TypeError |
| JobInfo.CampaignMake | model/job_info.py:67-79 | Campaign.make succeeds exactly when its six fields are present and the requirement parses, builds the campaign from them, and raises only TypeError |
| JobInfo.MissionMake | model/job_info.py:111-122 | Mission.make succeeds exactly when its five fields are present and the requirement parses, builds the mission from them, and raises only TypeError |
| JobInfo.OrderMake | model/job_info.py:145-155 | Order.make succeeds exactly when author, values, trigger and purpose are present, builds the order from them, and raises only TypeError |
| JobInfo.ReportMake | model/job_info.py:175-184 | Report.make succeeds exactly when time, purpose and values are present, builds the report from them, and raises only TypeError |
| JobInfo.WorkMake | model/job_info.py:203-212 | Work.make succeeds exactly when time, purpose and values are present, builds the work from them, and raises only TypeError |
| JobInfo.ExtraKeysIgnored | model/job_info.py:175-212 | a key the report and work parsers do not read never changes what they build or whether they fail |
| JobInfo.PyAdd | model/job_info.py:62 | `purpose + place` concatenates two strings and raises only TypeError |
| JobInfo.GetId | model/job_info.py:61-65 | get_id of string purpose and place is the md5 digest of their concatenation |
| JobInfo.SameConcatenationSameId | model/job_info.py:105-109 | a campaign and a mission whose purpose + place spell the same string get the same id |
| JobInfo.SplitCollision | model/job_info.py:61-65 | purpose "ab" at place "c" and purpose "a" at place "bc" get the same id |
| Rosters.FreshId | sergeant.py:62 | the id given to a newcomer (`str(id(info))`) is a non-empty string of digits that no stored key uses |
| Rosters.WithId | sergeant.py:71 | `info['id'] = key` sets the id entry and leaves every other entry as it was |
| Rosters.Entry | sergeant.py:58 | the cached entry holds the sender's id and its payload under the two given keys |
| Rosters.Stamp | sergeant.py:69-72 | get_pvt_info raises KeyError for an unknown id and then changes nothing; otherwise it writes the id into the stored record, answers that record, and leaves every other key and the key order as they were |
| Rosters.StampTwice | sergeant.py:69-72 | asking for the same record twice answers and stores what the first call did |
| Rosters.StampSelfKeyed | captain.py:57-60 | when every stored record already carries its own id, asking answers the stored record and changes nothing |
| HttpSergeant.JoinAnswer | sergeant.py:67 | the join answer holds the private's name and the new id, in that order |
| HttpSergeant.Admit | sergeant.py:61-67 | accept_pvt succeeds exactly when the posted info has a name; then the info is stored as it came under a new id appended to the key order and the answer names it; otherwise it raises and nothing is stored |
| HttpSergeant.JoinThenInfo | sergeant.py:61-72 | the id accept_pvt answers finds the private that posted, now carrying that id and otherwise unchanged |
| HttpSergeant.JoinKeepsOthers | sergeant.py:61-67 | a join leaves every earlier private's record as it was |
| HttpSergeant.Sergeant.constructor | sergeant.py:19-25 | a new sergeant has no privates, no cache, no superior, no id and no report timer, and a report interval of 0 |
| HttpSergeant.Sergeant.Report | sergeant.py:40-51 | with interval 0 nothing happens; otherwise the running timer is cancelled, a new one is started with the interval, and the cache is posted to the captain's report URL; every timer but the current one stays cancelled |
| HttpSergeant.Sergeant.AcceptWork | sergeant.py:55-58 | an unknown private raises KeyError and nothing is cached; a known one's work is appended to the cache with its id |
| HttpSergeant.Sergeant.AcceptPvt | sergeant.py:61-67 | the method does what Admit states, and the roster stays a dictionary of records |
| HttpSergeant.Sergeant.GetPvtInfo | sergeant.py:69-72 | the method does what Stamp states, and the roster stays a dictionary of records |
| HttpSergeant.PvtJoin | sergeant.py:80-87 | a body get_dict rejects is answered as get_dict answers it; otherwise the private is admitted and answered with the join answer, and a nameless one gets an internal error |
| HttpSergeant.PvtWork | sergeant.py:90-100 | a rejected body is answered by get_dict; an unknown private gets 404 "the pvt is not my soldier" and nothing is cached; a known one's work is cached and answered with success |
| HttpSergeant.PvtInfo | sergeant.py:103-109 | an unknown private gets 404; a known one gets its stored record, now carrying its id |
| HttpSergeant.DevCache | sergeant.py:112-114 | the cache is answered as a JSON list with status 200 |
| HttpCaptain.Enrol | captain.py:49-55 | accept_sgt raises TypeError on a non-object; otherwise it writes the new id into the posted object and stores it under that id, appended to the key order, then answers it, or raises KeyError if it has no name |
| HttpCaptain.EnrolKeepsSelfKeyed | captain.py:49-55 | after accept_sgt every stored sergeant still carries its own id |
| HttpCaptain.EnrolledIsFound | captain.py:49-60 | asking for the id accept_sgt gave answers the stored sergeant and changes nothing |
| HttpCaptain.Captain.constructor | captain.py:25-31 | a new captain has the given name, address and port, no id, no sergeants and no reports |
| HttpCaptain.Captain.GetInfo | captain.py:33-41 | get_info holds id, name, addr and port, in that order, with the captain's values |
| HttpCaptain.Captain.AcceptReport | captain.py:43-47 | an unknown sergeant raises KeyError and nothing is cached; a known one's report is appended to the cache with its id |
| HttpCaptain.Captain.AcceptSgt | captain.py:49-55 | the method does what Enrol states, and every stored sergeant keeps carrying its own id |
| HttpCaptain.Captain.GetSgtInfo | captain.py:57-60 | the method does what Stamp states; as every record carries its id, a known sergeant's stored record is answered and nothing changes |
| HttpCaptain.Captain.GetSgtList | captain.py:62-63 | the ids of the sergeants, in joining order |
| HttpCaptain.SgtJoin | captain.py:106-113 | a rejected body is answered by get_dict; otherwise the sergeant is enrolled and answered, and a raise gets an internal error |
| HttpCaptain.SgtReport | captain.py:116-126 | a rejected body is answered by get_dict; an unknown sergeant gets 404 and nothing is cached; a known one's report is cached and answered with success |
| HttpCaptain.SgtListReply | captain.py:129-132 | status 200 with every sergeant id, in order, under sgt_list |
| HttpCaptain.SgtInfo | captain.py:135-141 | an unknown sergeant gets 404 with the "pvt" wording; a known one gets its stored record; the roster is unchanged |
| HttpCaptain.DevCache | captain.py:144-146 | status 200 with the cached reports under cache |
| HttpCaptain.InfoReply | captain.py:155-158 | status 200 with result success and the captain's info |
| HttpPrivate.PickMeans | private.py:57-61 | one order item: a missing sensor or interval raises as the lookup does, an unhashable sensor raises TypeError, a sensor the private lacks is skipped, and a known one is kept with its interval |
| HttpPrivate.Plan | private.py:56-65 | a non-iterable order raises TypeError before anything is accepted; otherwise set_order's loop keeps, skips or stops as each item says, and keeps only the private's own sensors |
| HttpPrivate.KeptKnown | private.py:60-61 | set_order only ever accepts "random" or "zero" |
| HttpPrivate.WellFormedAccepted | private.py:56-65 | an order whose every item names a known sensor and carries an interval is accepted whole, item for item and in order |
| HttpPrivate.PickStep | private.py:57-65 | one more turn of set_order's loop: it raises, skips or appends the item's setting |
| HttpPrivate.Echo | private.py:65 | an accepted entry holds the sensor and the interval, in that order |
| HttpPrivate.Echoes | private.py:65 | the accepted list echoes the kept settings one for one |
| HttpPrivate.Latest | private.py:57-64 | the position of the last setting for a sensor, if any |
| HttpPrivate.Readings | private.py:86-87 | each setting applied posts one reading of that sensor to the sergeant's work URL |
| HttpPrivate.AfterKeepsValid | private.py:71-87 | applying settings keeps every timer but each sensor's current one cancelled, and starts one timer per setting |
| HttpPrivate.LastSettingWins | private.py:63-84 | after set_order each sensor holds the interval of its last setting and runs the timer started for it; a sensor no setting names keeps its interval and timer |
| HttpPrivate.AbsentSensorKeepsRunning | private.py:71-84 | a running sensor that the order does not name keeps its timer, and that timer is never cancelled |
| HttpPrivate.Sensor.constructor | private.py:93-96 | a sensor starts with the given interval and no timer |
| HttpPrivate.Private.constructor | private.py:20-30 | a new private's info is id "", name "pvt-http" and port 0, in that order; it has no superior, both sensors have interval 0 and no timer |
| HttpPrivate.Private.Join | private.py:32-42 | the superior endpoint is addr:port; the info, with the sensor names added, is posted to the sergeant's join URL; the answered id is then stored, and a missing id raises with the sensor list already added |
| HttpPrivate.Private.Working | private.py:71-87 | __working cancels the sensor's timer, starts a new one with its interval, and posts a reading to the work URL |
| HttpPrivate.Private.Enact | private.py:63-64 | setting a sensor's interval and then working it changes the state as one applied setting |
| HttpPrivate.Private.SetOrder | private.py:48-69 | set_order answers the echoes of the kept settings or raises where the loop stopped, leaves the sensors as the kept settings applied in order leave them, and posts one reading per kept setting |
| HttpPrivate.Private.Run | private.py:57-65 | the loop over an order's items is the Scan of them: accepted echoes, state and posts follow the kept settings, and the loop stops at the first raise |
| HttpPrivate.AcceptedBody | private.py:113 | the answer holds result success and the accepted list |
| HttpPrivate.OrderRoute | private.py:106-113 | a rejected body is answered by get_dict and changes nothing; otherwise the order is applied, and the answer is 200 with the accepted list, or an internal error when set_order raised |
| HttpPrivate.InfoRoute | private.py:117-124 | a body get_dict rejects is answered by get_dict even on GET; otherwise 200 with result success and the private's info |
| Scans.Scan | troops/private.py:66-72 | the loop keeps at most one value per item, and it finishes without raising exactly when no item raises |
| Scans.ScanAppend | troops/private.py:66-72 | looping over two stretches in a row: the second runs only when the first did not raise |
| Scans.ScanStep | private.py:57-65 | one more turn after a prefix that did not raise raises, skips or appends as that item says |
| Scans.ScanStops | private.py:57-65 | once a prefix raised, the rest of the items change nothing |
| Scans.ScanKeepsAll | troops/private.py:66-72 | when every item is kept as itself, the loop keeps them all, in order |
| Scans.ScanKeptFrom | troops/private.py:66-72 | everything kept comes from an item picked to be kept, a loop that did not raise kept every such item, and a loop that raised did so at some item |
| Records.CampaignOf | troops/common.py:33-40 | `Campaign(**v)` succeeds exactly when v is a dictionary with exactly the six field names, takes each field from v, and otherwise raises TypeError |
| Records.MissionOf | troops/common.py:42-49 | `Mission(**v)` succeeds exactly when v has exactly the six field names, takes each field from v, and otherwise raises TypeError |
| Records.ReportOf | troops/common.py:60-64 | `Report(**v)` succeeds exactly when v has exactly time, purpose and values, takes each from v, and otherwise raises TypeError |
| Records.WorkOf | troops/common.py:66-70 | `Work(**v)` succeeds exactly when v has exactly time, purpose and value, takes each from v, and otherwise raises TypeError |
| Records.LeaderInfoOf | troops/common.py:18-24 | `LeaderInfo(**v)` succeeds exactly when v has exactly the five field names, takes each from v, and otherwise raises TypeError |
| Records.SoldierInfoOf | troops/common.py:11-17 | `SoldierInfo(**v)` succeeds exactly when v has exactly the five field names, takes each from v, and otherwise raises TypeError |
| Records.CommanderInfoOf | troops/common.py:25-31 | `CommanderInfo(**v)` succeeds exactly when v has exactly the five field names, takes each from v, and otherwise raises TypeError |
| TroopsPrivate.Keep | troops/private.py:67-68 | one turn of set_order's loop raises TypeError exactly for an unhashable sensor, keeps the order unchanged exactly when its sensor is "random" or "zero", and skips it otherwise |
| TroopsPrivate.Accepted | troops/private.py:66-72 | set_order keeps only orders from the input with a known sensor, keeps every such order when nothing raises, and raises TypeError exactly when some sensor is unhashable |
| TroopsPrivate.AllKnownAllKept | troops/private.py:66-72 | when every order names a known sensor, all are kept, in order |
| TroopsPrivate.EventsOf | troops/private.py:62 | the events of the orders, one for one |
| TroopsPrivate.Private.constructor | troops/private.py:30-38 | a new private has no orders, no superior, and info with its name, address, port and the sensors "random" and "zero" |
| TroopsPrivate.Private.Join | troops/private.py:40-53 | the superior endpoint is addr:port and the info is posted to the sergeant's soldiers URL |
| TroopsPrivate.Private.SetOrder | troops/private.py:55-75 | every old order's event is set, the orders become the accepted ones (or those kept before the raise), and a thread is started for each |
| TroopsPrivate.OrderOf | troops/private.py:110 | `Order(**o, event=...)` succeeds exactly when o has exactly sensor and interval, takes both from o with a fresh event, and otherwise raises TypeError |
| TroopsPrivate.Items | troops/private.py:107-109 | a list of orders is taken as is; a single order becomes a list of one |
| TroopsPrivate.MakeOrders | troops/private.py:110 | the comprehension succeeds exactly when every element has the order keywords, builds one order per element with consecutive fresh events, and otherwise raises TypeError |
| TroopsPrivate.Incoming | troops/private.py:107-110 | a body without orders raises as the lookup does; otherwise the orders are built from the listed items |
| TroopsPrivate.Stripped | troops/private.py:116-117 | an order shown without its event holds sensor and interval, in that order |
| TroopsPrivate.Listing | troops/private.py:116-118 | the answer holds result success and every current order without its event, in order |
| TroopsPrivate.OrderRoute | troops/private.py:103-118 | other verbs get 405; GET lists the orders; a PUT json_input rejects is answered by it and changes nothing; a PUT whose orders do not build raises and changes nothing; otherwise the old events are set, the accepted orders replace the old ones and are listed, or a raise in the loop gives an internal error |
| TroopsPrivate.EchoesKnownOrders | troops/private.py:103-118 | when every posted order names a known sensor, the answer lists each posted order's sensor and interval, one for one and in order |
| StringOrder.NoLaterTotal | controller/recruiter.py:32 | any two strings are comparable in Python's string order |
| StringOrder.NoLaterTransitive | controller/recruiter.py:32 | Python's string order is transitive |
| StringOrder.Insert | controller/recruiter.py:32 | inserting into a sorted list keeps it sorted and adds exactly that one string |
| StringOrder.Sort | controller/recruiter.py:32 | `sorted` gives a sorted permutation of its input |
| Http.RequestJson | troops/leader.py:161 | `request.json` raises BadRequest exactly for a JSON content type whose body does not decode, and is None exactly for a non-JSON content type or the literal null |
| Http.DropEnds | controller/leader.py:162 | `s[1:-1]` drops the first and the last character, and gives "" for a string shorter than two |
| ResponseStatus.MakeError | utils/helpers.py:38-43 | make_error holds success false and the given message |
| ResponseStatus.OnlySuccessSucceeds | utils/helpers.py:16-43 | Success is the only status whose success is true; NotModified, NotFound, Failed, NotImplemented and every made error have success false |
| RequestContract.JsonInputGate | utils/helpers.py:46-66 | json_input lets every verb but PUT and POST through; for those it passes exactly a JSON content type with a body that decodes to a non-null value, answers 406 for a non-JSON type or null, 400 for a body that does not decode, and (in the copies that print the body) an internal error for a body that is not UTF-8 |
| RequestContract.AccessSubordinate | controller/leader.py:120-133 | access_subordinate lets exactly a registered id through and answers 404 "The subordinate is not found" otherwise |
| RequestContract.RemovalReply | controller/leader.py:197-200 | a truthy removal answers success with 200, anything else 404 NotFound; controller/recruiter.py:157-160 decides the same way |
| RequestContract.GetDict | common.py:8-25 | get_dict answers 406 for a Content-Type other than exactly application/json, 400 for a body that does not decode, and otherwise passes the decoded value on |
| DummySensor.InitialTableValid | dummy_sensor.py:13-23 | the eight readings have distinct names |
| DummySensor.Reading | dummy_sensor.py:29-33 | one reading holds name and value, in that order, with the sensor's name and value |
| DummySensor.AllReadings | dummy_sensor.py:28-29 | one reading per table entry, in table order |
| DummySensor.AllAgreesWithEach | dummy_sensor.py:25-36 | in a table with distinct names, each entry of the 'all' answer is what asking for that name answers |
| DummySensor.Sensor.constructor | dummy_sensor.py:14-23 | a new board holds brightness 400, button True, mpltemp 20, pressure 1024, humidity 40, temprature 20, currentpir True and pircount 27, in that order |
| DummySensor.Sensor.JsonValue | dummy_sensor.py:25-36 | 'all' gives every reading in table order; a known name gives that reading; any other name gives None; the table is not changed |
| DummySensor.GetSensor | dummy_sensor.py:45-51 | 'all' and a known name are answered 200 with what json_value gives; any other name gets 404 |
| DummySensor.NewBoardAnswers | dummy_sensor.py:14-36 | a new board answers 'all' with eight readings, and each of its names with that name's value |
| RequestContract.PrintingDiffersOnlyOnNotUtf8 | troops/utils.py:17-31 | the copy that prints the body first answers as the quiet copy on every request but a PUT or POST whose body is not UTF-8 |
| RequestContract.QuietGateNeverFails | rest_impl/utils/helpers.py:52-67 | the copy without the print never answers an internal error itself |
| RestClient.CheckResponse | utils/rest.py:59-87 | 304 is passed on with no problem; a body that is not JSON, or is JSON null, is a problem; otherwise the problem is absent exactly when `_status.success` is truthy, a missing `_status` or `success` raises, and an unsuccessful answer reports `_status.msg`, which must be a string |
| RestClient.Send | utils/rest.py:24-56 | a transport exception is returned as the problem with no response; a response is classified by _rest_check_response; a response is present exactly when none was raised |
| RestClient.SuccessIsNoProblem | utils/rest.py:81-87 | a body whose `_status.success` is true is no problem, whatever the status code |
| RestClient.FailureCarriesMessage | utils/rest.py:82-85 | an unsuccessful answer is reported with its message, and a body without `_status` raises KeyError |
| RestClient.WithEtag | utils/rest.py:17-19 | with an etag keyword, If-None-Match is set to it; without, the headers are unchanged; every other header keeps its value |
| RestClient.SetEtag | utils/rest.py:14-21 | the caller's headers dictionary, or a new empty one, receives If-None-Match as WithEtag says, in place |
| RestClient.MarkJson | utils/rest.py:48-50 | put with a JSON payload sets Content-Type to application/json in the same headers dictionary |
| RestClient.FirstOf | utils/rest.py:118 | the position of the first character from the stop set, and no stop before it |
| RestClient.Line | utils/rest.py:118 | `.*` matches the longest prefix without a newline |
| RestClient.SelectClient | utils/rest.py:116-124 | a URL not starting with "test://" gives no client; a selected client always comes from a test URL |
| RestClient.SelectRoundTrip | utils/rest.py:116-124 | a test URL built from a key without '/' or newline and a path without newline selects that key's client with that path, and raises KeyError for an unknown key |
| TroopsCommander.Commander.constructor | troops/commander.py:24-30 | a new commander has the given id, name and endpoint, no subordinates, no campaigns and no reports |
| TroopsCommander.Commander.GenerateInfo | troops/commander.py:42-52 | generate_info copies id, name and endpoint, lists exactly the registry's keys in joining order, and carries the current campaigns |
| TroopsCommander.Commander.CheckSubordinate | troops/commander.py:58-64 | the check holds exactly when the id is a registered key, and raises TypeError for an unhashable id |
| TroopsCommander.Commander.GetSubInfo | troops/commander.py:66-67 | a registered id gives its stored record, which carries that id; an unregistered one raises KeyError |
| TroopsCommander.Commander.AcceptCampaign | troops/commander.py:69-71 | the campaign is appended as the last one and returned; nothing else changes |
| TroopsCommander.Commander.AcceptSubordinate | troops/commander.py:73-82 | a registered id returns None and changes nothing; a new one is stored under its id, appended to the key order, and returned |
| TroopsCommander.Commander.AcceptReport | troops/commander.py:84-88 | as written, a registered id returns False and caches nothing, and an unregistered one appends the report and returns True |
| TroopsCommander.GetInfo | troops/commander.py:106-126 | status 200 with success and the dictionary of generate_info |
| TroopsCommander.AcceptCampaigns | troops/commander.py:170-200 | a body that does not decode gets 400; a missing JSON body or a body that is not exactly a campaign raises; otherwise the campaign is appended and echoed with success |
| TroopsCommander.GetSubordinates | troops/commander.py:203-226 | a GET answers 200 with one dictionary per registered leader, in joining order |
| TroopsCommander.AcceptSubordinate | troops/commander.py:229-273 | a body json_input rejects is answered by it; a body that is not exactly a leader raises; a registered id gets 400 "Requested leader already exists in the troop" and changes nothing; otherwise the leader is registered and echoed with success |
| TroopsCommander.GetSubInfo | troops/commander.py:276-323 | an unregistered id gets 404 "The subordinate is not found"; a registered one gets success with its stored record |
| TroopsCommander.AcceptReport | troops/commander.py:326-366 | an unregistered id gets 404; a rejected body is answered by json_input; a body that is not exactly a report raises; otherwise the report is echoed with success, and as written nothing is cached for a registered id |
| TroopsLeader.Leader.constructor | troops/leader.py:18-24 | a new leader has empty id, name and endpoint, no subordinates, no missions and no works |
| TroopsLeader.Leader.GenerateInfo | troops/leader.py:26-36 | generate_info copies id, name and endpoint, lists exactly the registry's keys in joining order, and carries the current missions |
| TroopsLeader.Leader.CheckSubordinate | troops/leader.py:38-44 | the check holds exactly when the id is a registered key, and raises for an unhashable id |
| TroopsLeader.Leader.GetSubInfo | troops/leader.py:50-51 | a registered id gives its stored record, which carries that id; an unregistered one raises KeyError |
| TroopsLeader.Leader.AcceptMission | troops/leader.py:46-48 | the mission is appended as the last one and returned; nothing else changes |
| TroopsLeader.Leader.AcceptSubordinate | troops/leader.py:53-64 | a registered id returns False and changes nothing; a new one is stored under its id, appended to the key order, and True is returned |
| TroopsLeader.Leader.AcceptWork | troops/leader.py:66-70 | as written, a registered id returns False and caches nothing, and an unregistered one appends the work and returns True |
| TroopsLeader.InitializeApp | troops/leader.py:81-86 | the new leader has the given id, name and endpoint and nothing else |
| TroopsLeader.GetInfo | troops/leader.py:89-109 | status 200 with success and the dictionary of generate_info |
| TroopsLeader.GetMissions | troops/leader.py:112-134 | status 200 with one dictionary per accepted mission, in acceptance order |
| TroopsLeader.AcceptMissions | troops/leader.py:137-166 | a body that does not decode gets 400; a missing JSON body or one that is not exactly a mission raises; otherwise the mission is appended and echoed with success |
| TroopsLeader.GetSubordinates | troops/leader.py:169-192 | a GET answers 200 with one dictionary per registered soldier, in joining order |
| TroopsLeader.AcceptSubordinate | troops/leader.py:195-225 | a body json_input rejects is answered by it; a body that is not exactly a soldier raises; a registered id gets 500 Failed and changes nothing; otherwise the soldier is registered and echoed with success |
| TroopsLeader.GetSubInfo | troops/leader.py:228-269 | an unregistered id gets 404 "The subordinate is not found"; a registered one gets success with its stored record |
| TroopsLeader.AcceptWork | troops/leader.py:272-304 | an unregistered id gets 404; a rejected body is answered by json_input; a body that is not exactly a work raises; otherwise the work is echoed with success, and as written nothing is cached for a registered id |
| OrgCharts.FirstListing | model/recruiter.py:48-68 | the search that returns early: the first superior, in table order, whose subordinates contain the id; None exactly when no entry contains it; a raise comes from the first entry whose membership test raises, with every entry before it not listing the id |
| OrgCharts.Filter | troops/recruiter.py:65-67 | `list(filter(...))` succeeds exactly when no entry's membership test raises; otherwise it raises what the first raising entry raises, every entry before it having been tested without a raise |
| OrgCharts.FilterFirst | troops/recruiter.py:65-70 | the first entry kept by the filter, or None; when no membership test raises it is exactly the early-return search's answer; a raise comes from the first entry that raises, wherever the first match is |
| OrgCharts.FilterAgrees | troops/recruiter.py:65-70 | when no membership test raises, the filter keeps nothing exactly when the early-return search finds nothing, and otherwise its first kept entry is the one that search finds |
| OrgCharts.RaiseAnywhereRaises | troops/recruiter.py:65-67 | an entry whose membership test raises makes the filtered search raise TypeError, even after a match |
| OrgCharts.FilterRaisesAfterMatch | troops/recruiter.py:65-70 | for a first squad listing "s1" and a second squad with null subordinates, the early-return search answers the first leader while the filter raises TypeError |
| OrgCharts.FirstListingFindsFirst | model/recruiter.py:54-56 | the first entry that lists the id is the one returned |
| OrgCharts.ListTablesNeverRaise | model/recruiter.py:48-68 | when every subordinates value is a list, the search never raises, and finds nothing exactly when no list contains the id |
| Registries.Contains | model/commander.py:48-54 | `id in subordinates` holds exactly for a stored key and raises TypeError for an unhashable id |
| Registries.Index | model/commander.py:56-57 | indexing gives the stored value of a present key, KeyError for an absent one and TypeError for an unhashable one |
| Registries.IndexCarriesId | model/commander.py:56-57 | in a registry keyed by each record's own id, the record found under an id carries that id |
| Registries.JoinKeeps | model/commander.py:81-90 | storing a record under a new id appends it at the end and keeps the registry keyed by its records' ids |
| TroopsRecruiter.Recruiter.constructor | troops/recruiter.py:29-34 | a new recruiter has no squads, no troops, no commanders and empty caches |
| TroopsRecruiter.Recruiter.LoadConfig | troops/recruiter.py:36-57 | the configured troops and squads are appended, in file order, to the two lists, and nothing else changes |
| TroopsRecruiter.Recruiter.GetSquadLeader | troops/recruiter.py:59-70 | every squad is tested: a squad that cannot be searched raises wherever it is; otherwise the leader of the first squad listing the soldier, as OrgCharts.FilterFirst characterises it |
| TroopsRecruiter.Recruiter.GetTroopCommander | troops/recruiter.py:72-83 | every troop is tested: a troop that cannot be searched raises wherever it is; otherwise the commander of the first troop listing the leader, as OrgCharts.FilterFirst characterises it |
| TroopsRecruiter.Recruiter.ResolveLeader | troops/recruiter.py:85-101 | since commander_cache is never written, resolve_leader always raises: without force_retrieve an unhashable id raises TypeError at the cache test; otherwise the troop search's own raise, TypeError for an unhashable commander id, or KeyError |
| TroopsRecruiter.Recruiter.ResolveCommander | troops/recruiter.py:103-108 | the empty commander_cache raises KeyError for a hashable id and TypeError otherwise |
| TroopsRecruiter.GetSquadLeaderRoute | troops/recruiter.py:119-162 | 404 "Specified soldier does not exist on database." when no squad lists the soldier; any other outcome ends in resolve_leader raising, an internal error |
| TroopsRecruiter.GetTroopCommanderRoute | troops/recruiter.py:202-245 | as written the route searches the squads, not the troops: 404 "Specified leader does not exist on database." when no squad lists the id, an internal error otherwise |
| TroopsRecruiter.TroopRouteIgnoresTroops | troops/recruiter.py:237-239 | a leader listed in a troop but in no squad is answered 404, although get_troop_commander finds its commander |
| TroopsRecruiter.AddCommanderOutcome | troops/recruiter.py:305-327 | json_input's answer when it rejects the body; a body that is not exactly a commander record, or one with an unhashable id, raises; otherwise the commander is stored under its id, every other entry stays, and it is echoed under "commander" |
| TroopsRecruiter.AddCommander | troops/recruiter.py:305-327 | the answer and the new CommanderList are those of AddCommanderOutcome, the list stays keyed by commander ids, and the troop and squad lists are unchanged |
| TroopsRecruiter.KeyedByPut | troops/recruiter.py:325-326 | storing a commander under its own hashable id keeps CommanderList keyed by commander ids |
| ModelRecruiter.Recruiter.constructor | model/recruiter.py:18-23 | the tables start empty and then hold the configuration as loaded; both caches are empty |
| ModelRecruiter.Recruiter.LoadConfig | model/recruiter.py:25-46 | TroopList gets each troop's subordinates under its commander id and SquadList each squad's under its leader id, in file order; the caches do not change |
| ModelRecruiter.Recruiter.GetSquadLeader | model/recruiter.py:48-57 | the first leader, in SquadList order, whose soldiers include the id, as OrgCharts.FirstListing characterises it |
| ModelRecruiter.Recruiter.GetTroopCommander | model/recruiter.py:59-68 | the first commander, in TroopList order, whose leaders include the id, as OrgCharts.FirstListing characterises it |
| ModelRecruiter.Recruiter.ResolveCommander | model/recruiter.py:85-92 | None exactly when the id is not cached; otherwise the cached record for that id |
| ModelRecruiter.LoadTable | model/recruiter.py:34-37 | the loop's table is the table with each unit stored under its superior's id in order |
| ModelRecruiter.LoadedTroopEntry | model/recruiter.py:34-37 | after loading, a commander's entry holds the subordinates of its last occurrence in the file, and an unconfigured id has none |
| ModelRecruiter.SingleTroopEntry | model/recruiter.py:34-37 | a commander configured once holds exactly the subordinates given for it |
| ModelCommander.BaseMission | model/commander.py:64-69 | the template exists exactly when the campaign's requirements have "values" and "trigger"; it has place All, destination Superior, the campaign's purpose, and those two values |
| ModelCommander.SetAuthor | model/commander.py:71-72 | assigning the author of a copy of the namedtuple Mission (model/objects.py:89-102) raises AttributeError, whatever the author |
| ModelCommander.FirstNotAList | model/commander.py:70-73 | in the intended fan-out: the position of the first leader whose missions cannot be appended to; every leader before it can be |
| ModelCommander.AssignFirstKeeps | model/commander.py:70-73 | in the intended fan-out, handing out missions keeps every leader id, in the same order, and keeps the registry keyed by ids |
| ModelCommander.EveryLeaderGetsOneMission | model/commander.py:59-79 | the intended fan-out: when no leader stops the loop, each leader's missions gain exactly one copy of the template, authored by that leader's id, at the end |
| ModelCommander.Commander.constructor | model/commander.py:14-20 | a new commander has the given id, name and endpoint, no subordinates, no campaigns and no reports |
| ModelCommander.Commander.GenerateInfo | model/commander.py:32-42 | the info copies id, name and endpoint, lists the subordinate ids in joining order, and carries the campaigns |
| ModelCommander.Commander.CheckSubordinate | model/commander.py:48-54 | holds exactly when the id is a registered key; raises TypeError for an unhashable id |
| ModelCommander.Commander.GetSubInfo | model/commander.py:56-57 | the stored record of a registered id, carrying that id; KeyError for an unregistered id, TypeError for an unhashable one |
| ModelCommander.Commander.AcceptSubordinate | model/commander.py:81-90 | a registered id returns None and changes nothing; a new leader is appended under its id and returned; campaigns and reports are unchanged |
| ModelCommander.Commander.AcceptCampaign | model/commander.py:59-79 | as written: a template that cannot be built raises first; a campaign for All with a registered leader raises AttributeError at the first leader, before any leader is served and before the campaign is kept; otherwise the campaign is appended and returned; the leaders never change |
| ModelCommander.ServingChangesRegistry | model/commander.py:70-73 | as soon as one leader is registered, the intended fan-out changes the registry (the first leader's missions grow by one), which accept_campaign as written never does |
| ModelCommander.Commander.ServeCampaign | model/commander.py:59-79 | as intended: a template that cannot be built raises first; a campaign for one place is only appended; a campaign for All gives every leader, in order, one authored copy of the template up to the first leader that raises, and is appended only when none raises |
| ModelCommander.Commander.GiveMissions | model/commander.py:70-73 | the intended loop stops at FirstNotAList and leaves exactly the leaders before it served |
| ModelCommander.Commander.AcceptReport | model/commander.py:92-96 | as written a registered id returns False and caches nothing; an unregistered one caches the report and returns True |
| ModelLeader.Leader.constructor | model/leader.py:13-19 | a new leader has the given id, name and endpoint, no subordinates, no missions and no works |
| ModelLeader.Leader.GenerateInfo | model/leader.py:47-57 | the info copies id, name and endpoint, lists the soldier ids in joining order, and carries the missions |
| ModelLeader.Leader.CheckSubordinate | model/leader.py:59-65 | holds exactly when the id is a registered key |
| ModelLeader.Leader.GetSubInfo | model/leader.py:71-72 | the stored record of a registered id, carrying that id; KeyError for an unregistered id |
| ModelLeader.Leader.AcceptMission | model/leader.py:67-69 | the mission is appended last and returned; nothing else changes |
| ModelLeader.Leader.AcceptSubordinate | model/leader.py:74-85 | a registered id returns False and changes nothing; a new soldier is appended under its id and True is returned |
| ModelLeader.Leader.AcceptWork | model/leader.py:87-91 | as written a registered id returns False and caches nothing; an unregistered one caches the work and returns True |
| ControllerCommander.GetInfo | controller/commander.py:19-39 | status 200 with success and the rendered generate_info |
| ControllerCommander.GetCampaigns | controller/commander.py:58-80 | status 200 with one rendered campaign per accepted campaign, in acceptance order |
| ControllerCommander.GetSubordinates | controller/commander.py:116-139 | a GET answers 200 with one rendered leader per registered leader, in joining order |
| ControllerCommander.AcceptCampaigns | controller/commander.py:83-113 | 200 exactly when the body decodes to a campaign whose mission template can be built and which is not for place All while a leader is registered; then the campaign is appended and echoed; otherwise the campaigns are unchanged, and a body that does not decode gets the 400 page; the leaders never change |
| ControllerCommander.AcceptSubordinate | controller/commander.py:142-186 | json_input's answer when it rejects the body; a body that is not exactly a leader, or an unhashable id, is an internal error; a registered id gets 400 "Requested leader already exists in the troop" and changes nothing; a new leader is appended and echoed with success |
| ControllerCommander.GetSubInfo | controller/commander.py:189-236 | an unregistered id gets 404 "The subordinate is not found"; a registered one gets success with its stored record, which carries that id |
| ControllerCommander.AcceptReport | controller/commander.py:239-278 | an unregistered id gets 404 first; then json_input's answer; a body that is not exactly a report is an internal error; otherwise the report is echoed with success and, as written, never cached |
| ControllerLeader.GetInfo | controller/leader.py:13-33 | status 200 with success and the rendered generate_info |
| ControllerLeader.GetMissions | controller/leader.py:36-58 | as written, `values()` on the missions list raises, so every request is answered as an internal error |
| ControllerLeader.GetSubordinates | controller/leader.py:61-84 | a GET answers 200 with one rendered soldier per registered soldier, in joining order; any other answer is json_input's |
| ControllerLeader.AcceptSubordinate | controller/leader.py:87-117 | json_input's answer when it rejects the body; a body SoldierInfo.make refuses, or an unhashable id, is an internal error; a registered id gets 500 Failed and changes nothing; a new soldier is appended and echoed with success |
| ControllerLeader.GetSubInfo | controller/leader.py:120-168 | an unregistered id gets 404; for a registered one, 304 with no body when the held tag equals the record's hash, otherwise 200 with the record and the hash as its ETag |
| ControllerLeader.StrongTagRevalidates | controller/leader.py:160-164 | a client sending back the one strong tag it was given is answered 304 |
| ControllerLeader.StarNeverRevalidates | controller/leader.py:160-164 | `If-None-Match: *` is never answered 304 for a record with a non-empty hash, unlike section 3.2 of RFC 7232 |
| ControllerLeader.TwoTagsText | controller/leader.py:162 | the header text of two strong tags is both quoted tags joined by a comma and a space |
| ControllerLeader.TagListNeverRevalidates | controller/leader.py:160-164 | a header with two strong tags is never answered 304 when the hash holds no comma |
| ControllerLeader.AcceptWork | controller/leader.py:203-235 | an unregistered id gets 404 first; then json_input's answer; a body Work.make refuses is an internal error; otherwise the work is echoed with success and, as written, never cached |
| ControllerRecruiter.GetCommanders | controller/recruiter.py:12-33 | status 200 with exactly the configured commander ids, each once, sorted ascending |
| ControllerRecruiter.GetCommanderInfo | controller/recruiter.py:36-73 | 404 NotFound for an id the troop table does not name; success with the cached record when there is one, else with an empty object |
| ControllerRecruiter.RegisterCommanders | controller/recruiter.py:76-129 | json_input's answer when it rejects the body; a record CommanderInfo.make refuses, or whose id is not the path's, answers 400 echoing the input; a registration that returns None answers 404; otherwise success with the accepted record |
| ControllerRecruiter.GetSquadLeader | controller/recruiter.py:164-228 | a missing soldier_id answers 400, a soldier no squad lists 404, an unresolved leader 500, each with its message; otherwise success with the leader's record and the soldier's endpoint |
| ControllerRecruiter.GetTroopCommander | controller/recruiter.py:231-295 | the same order of checks on the troop table and the commander cache: 400, 404, 500, then the commander's record and the leader's endpoint |
| ControllerRecruiter.TroopCommanderNotFoundExactly | controller/recruiter.py:285-287 | when every troop lists its leaders as a list, the answer is 404 exactly when no troop lists the leader |
| RpcCommander.Detach | rpc_impl/commander.py:39-44 | an unknown id answers None; a known leader's record is answered without its client and loses 'rpcc' in the table, every other entry unchanged; a record already without it raises KeyError; an unhashable id raises TypeError |
| RpcCommander.CommanderBase.constructor | rpc_impl/commander.py:12-14 | a new commander has no missions, no leaders and has sent nothing |
| RpcCommander.CommanderBase.AddMission | rpc_impl/commander.py:16-29 | the mission is filed under its purpose, replacing an earlier one; placed All, every leader in registration order is sent its operation until one raises; placed elsewhere, the call raises AttributeError after the filing; leaders are unchanged |
| RpcCommander.CommanderBase.AddSubordinate | rpc_impl/commander.py:31-37 | the leader is filed under its id, then every stored mission is added again in filing order, and the first raise ends the call; the sends are exactly the replay's |
| RpcCommander.CommanderBase.GetSubordinate | rpc_impl/commander.py:39-44 | the answer, the raise and the new table are those of Detach |
| RpcCommander.SecondGetRaises | rpc_impl/commander.py:42-43 | asking for the same leader twice raises KeyError the second time and changes nothing more |
| RpcCommander.DetachedBlocksMissions | rpc_impl/commander.py:23-29 | once a leader's record has been answered, every mission placed All raises, since that leader's client is gone |
| RpcCommander.ReplayHaltsOnOtherPlace | rpc_impl/commander.py:35-37 | a replay whose first stored mission is placed other than All raises AttributeError at once and sends nothing |
| RemoteCalls.FiledByPurposePut | rpc_impl/leader.py:26 | filing a job under its own hashable purpose, new or not, keeps every stored job filed under its own purpose |
| RemoteCalls.RefileKeeps | rpc_impl/leader.py:44-46 | re-adding a stored job files it under the key it already has, so the store does not change |
| RemoteCalls.Enlist | rpc_impl/leader.py:41-42 | the record is stored exactly when it has an endpoint and a hashable id: under that id, with a client for that endpoint; the endpoint is read first, so its absence raises first |
| RemoteCalls.HashableItems | rpc_impl/leader.py:33 | `set(x)` succeeds exactly when x is iterable and every item is hashable, with those items; otherwise it raises TypeError |
| RemoteCalls.OrderFor | rpc_impl/leader.py:32-38 | an order is an add_order call sent to the soldier's own client |
| RemoteCalls.OrderCutsToWeapons | rpc_impl/leader.py:32-38 | the order carries the operation's trigger and purpose and exactly the requirements the soldier has as weapons; building it raises exactly when a field is missing, a set cannot be built, or the soldier has no client |
| RemoteCalls.Operation | rpc_impl/commander.py:24-29 | the operation object has exactly the keys place, requirements, trigger and purpose, in that order, with the given values |
| RemoteCalls.OperationFor | rpc_impl/commander.py:24-29 | an add_operation call to the leader's own client, copying the mission's four fields; it raises exactly when one is missing or the leader has no client |
| RemoteCalls.Spread | rpc_impl/leader.py:31-38 | the calls sent are the relay's for the targets in order, all of them exactly when none raises, and a raise is the relay's at the first target it failed for |
| RemoteCalls.FanOut | rpc_impl/leader.py:31-38 | the loop sends exactly what Spread describes and raises what it raises |
| RemoteCalls.ReplayReachesEveryone | rpc_impl/leader.py:40-46 | when no stored job raises, each subordinate receives the call of each stored job placed All |
| RemoteCalls.UntracedAgreesWhenNothingRaises | rpc_impl/leader.py:44-46 | when no replayed job raises, replaying without a trap sends exactly what replaying with one does |
| RpcLeader.LeaderBase.constructor | rpc_impl/leader.py:19-22 | a new leader has no operations, no soldiers, no superior and has sent nothing |
| RpcLeader.LeaderBase.AddOperation | rpc_impl/leader.py:24-38 | the operation is filed under its purpose, replacing an earlier one; placed All, every soldier in registration order is sent its order until one raises, and the raise leaves the call; soldiers and superior are unchanged |
| RpcLeader.LeaderBase.AddSubordinate | rpc_impl/leader.py:40-46 | the soldier is filed under its id, then every stored operation is added again in filing order, and the first raise ends the call; the sends are exactly the replay's |
| RpcLeader.LeaderBase.AcceptData | rpc_impl/leader.py:48-50 | the data is sent unchanged to the superior's client; before joining there is no superior and the call raises TypeError; nothing else changes |
| RpcLeader.StopsAtFirstFailure | rpc_impl/leader.py:44-46 | the replay raises what the first raising operation raised, after sending the calls of the operations before it and those that operation made before raising |
| RpcLeader.NothingRaisesSoFar | rpc_impl/leader.py:44-46 | while no replayed operation raises, the replay has not raised |
| RpcRecruiter.SoldierLastWins | rpc_impl/recruiter.py:28-29 | a soldier id given more than once is filed with its last entry |
| RpcRecruiter.LeaderLastWins | rpc_impl/recruiter.py:24-29 | a leader id repeated under one commander keeps only its last entry, with that entry's soldiers re-keyed |
| RpcRecruiter.CommanderLastWins | rpc_impl/recruiter.py:19-29 | a repeated commander id keeps only its last entry, with that entry's leaders re-keyed and no client |
| RpcRecruiter.UnconfiguredAbsent | rpc_impl/recruiter.py:19-21 | an id that no commander entry has is not in the table |
| RpcRecruiter.LeaderTableFiled | rpc_impl/recruiter.py:24-29 | a configured leader list gives a table in which each leader is filed under its own id |
| RpcRecruiter.RekeyFiled | rpc_impl/recruiter.py:12-29 | the constructor's table files every commander and every leader under its own id, each key once |
| RpcRecruiter.FileSoldiers | rpc_impl/recruiter.py:26-29 | the loop over a leader's soldiers builds exactly the re-keyed soldier table |
| RpcRecruiter.FileLeaders | rpc_impl/recruiter.py:22-29 | the loop over a commander's leaders builds exactly the re-keyed leader table |
| RpcRecruiter.FileCommanders | rpc_impl/recruiter.py:19-29 | the loop over the commanders builds exactly the re-keyed table |
| RpcRecruiter.Enrol | rpc_impl/recruiter.py:34-36 | a registered commander gets the client and the endpoint; its other fields and its leaders are unchanged |
| RpcRecruiter.Register | rpc_impl/recruiter.py:31-37 | an unknown id answers False and changes nothing; a known commander is enrolled in place and True is answered; an unhashable id raises TypeError |
| RpcRecruiter.RegisterFiled | rpc_impl/recruiter.py:31-37 | registration keeps every record filed under its id |
| RpcRecruiter.Card | rpc_impl/recruiter.py:42-46 | the card has id, name and place from the record, and raises KeyError exactly when one of the three is missing |
| RpcRecruiter.CommanderCard | rpc_impl/recruiter.py:39-47 | None for an unknown id; for a known one, the card with the name read from 'commander' |
| RpcRecruiter.CardCarriesId | rpc_impl/recruiter.py:39-47 | in a filed table the card of a known commander carries the id asked for |
| RpcRecruiter.RegisterKeepsCards | rpc_impl/recruiter.py:31-47 | registering a commander changes no answer of get_commander |
| RpcRecruiter.SameLookupSameCard | rpc_impl/recruiter.py:39-47 | get_commander depends only on the record filed under the id asked for |
| RpcRecruiter.EnrolKeepsCard | rpc_impl/recruiter.py:34-46 | registration leaves the keys a card reads as they were |
| RpcRecruiter.FirstCommander | rpc_impl/recruiter.py:50-51 | the first commander from a position on whose leaders include the id, and no earlier one does |
| RpcRecruiter.FirstCommanderKeeps | rpc_impl/recruiter.py:50-51 | the search of get_leader depends only on the commanders' tables of leaders |
| RpcRecruiter.LeaderCard | rpc_impl/recruiter.py:49-60 | None when no commander lists the leader; otherwise the leader's card under the first commander that lists it, with superior_ep that commander's endpoint, or '' before it registers |
| RpcRecruiter.RegisteredEndpointReachesLeader | rpc_impl/recruiter.py:31-60 | once the commander that first lists a leader registers, the leader's card gives that commander's endpoint |
| RpcRecruiter.SpotFrom | rpc_impl/recruiter.py:78-82 | the search visits each commander's leaders before the soldiers of each of its leaders, and stops at the first record that lists the id |
| RpcRecruiter.LeaderMetEarlier | rpc_impl/recruiter.py:77-97 | a leader of a commander is met by the search no later than that commander's own test, so the mutual recursion of resolve_superior and _resolve_leader terminates |
| RpcRecruiter.SetEndpoint | rpc_impl/recruiter.py:86 | the chosen leader's 'endpoint' becomes the value written, and the table keeps every key and record, only leaders' fields other than 'id' possibly differing |
| RpcRecruiter.Superior | rpc_impl/recruiter.py:77-88 | the first record that lists the id, in search order: a commander for a leader, a leader for a soldier, after resolving that leader and copying its answer's endpoint into it; None when none lists it |
| RpcRecruiter.ResolveLeader | rpc_impl/recruiter.py:90-97 | the answer of get_subordinate from the leader's superior when that is a registered commander; None otherwise or when it answers None |
| RpcRecruiter.FindSoldier | rpc_impl/recruiter.py:63-65 | the first leader, in search order, whose soldiers include the id, and no earlier leader lists it |
| RpcRecruiter.SoldierCard | rpc_impl/recruiter.py:62-75 | None when no leader lists the soldier; otherwise the soldier's card under the first leader that lists it, with superior_ep the resolved leader's endpoint, or '' when it cannot be resolved |
| RpcRecruiter.SuperiorOfLeader | rpc_impl/recruiter.py:78-80 | a leader id is answered with the first commander that lists it, and nothing changes |
| RpcRecruiter.SuperiorOfSoldier | rpc_impl/recruiter.py:81-87 | a soldier id is answered with the first leader that lists it, unless resolving that leader raises |
| RpcRecruiter.NoSuperior | rpc_impl/recruiter.py:77-88 | an id no record lists is answered None and nothing changes |
| RpcRecruiter.UnresolvedLeader | rpc_impl/recruiter.py:90-93 | _resolve_leader answers None when the superior is missing, is a leader, or is a commander without a client |
| RpcRecruiter.SuperiorWithoutClients | rpc_impl/recruiter.py:77-97 | before any commander registers, resolve_superior raises nothing and changes nothing for a hashable id |
| RpcRecruiter.ResolveWithoutClients | rpc_impl/recruiter.py:90-97 | before any commander registers, a leader resolves to None |
| RpcRecruiter.SettledLeader | rpc_impl/recruiter.py:83-85 | a soldier whose leader resolves to None is answered with that leader, unchanged |
| RpcRecruiter.SoldierWithoutClients | rpc_impl/recruiter.py:62-75 | before any commander registers, a soldier's card gives superior_ep '' and the table stays as it is |
| RpcRecruiter.ShapeKeepsFiled | rpc_impl/recruiter.py:86 | a table changed only in leaders' fields other than 'id', as the search leaves it, keeps every record filed under its id |
| RpcRecruiter.Recruiter.constructor | rpc_impl/recruiter.py:12-29 | the table is the configuration re-keyed by id at every level, and every record is filed under its id |
| RpcRecruiter.Recruiter.RegisterCommander | rpc_impl/recruiter.py:31-37 | the answer and the new table are those of Register |
| RpcRecruiter.Recruiter.ResolveSuperior | rpc_impl/recruiter.py:77-88 | the answer and the new table are those of Superior |
| RpcRecruiter.Recruiter.GetSoldier | rpc_impl/recruiter.py:62-75 | the answer and the new table are those of SoldierCard |
| RpcTroopsCommander.Bodies | rpc_impl/troops/commander.py:83 | the stored mission dictionaries, one per purpose, in filing order |
| RpcTroopsCommander.Prepared | rpc_impl/troops/commander.py:62-63 | a mission that has a sink or a 'mongo' entry is kept as it is; otherwise a sink is made for its 'destination', which must be present and a string; a mission that cannot be searched raises TypeError |
| RpcTroopsCommander.PreparedIsArmed | rpc_impl/troops/commander.py:62-63 | what add_mission stores already has its sink, so re-adding it makes no second sink, and its dictionary is unchanged |
| RpcTroopsCommander.MissionsValidPut | rpc_impl/troops/commander.py:64 | filing an armed mission under its hashable purpose keeps every stored mission armed and filed under its purpose |
| RpcTroopsCommander.PushRecord | rpc_impl/troops/commander.py:100-105 | a push record has exactly the keys purpose, place, time and data, in that order, with the data's values and one reading |
| RpcTroopsCommander.PushRecords | rpc_impl/troops/commander.py:100-105 | one push record per reading, in order, each carrying that reading; a missing or non-iterable 'values' raises first; no readings give no records |
| RpcTroopsCommander.Delivery | rpc_impl/troops/commander.py:98-106 | the records go to the sink of the mission filed under the data's purpose, inserted only when there are some and the sink's URI matches the mongodb pattern; an unknown purpose raises KeyError and a sink without a collection AttributeError |
| RpcTroopsCommander.Pow2 | rpc_impl/troops/commander.py:125 | 2 to the power n is at least 1 |
| RpcTroopsCommander.Refusals | rpc_impl/troops/commander.py:115-124 | the number of refused attempts before the first answer, or all of them; every attempt before it was refused |
| RpcTroopsCommander.Pow2Injective | rpc_impl/troops/commander.py:125 | two powers of 2 are equal exactly when their exponents are, so the final test tells every attempt refused from any other outcome |
| RpcTroopsCommander.Pow2Grows | rpc_impl/troops/commander.py:122 | a positive power of 2 is at least 2 |
| RpcTroopsCommander.Waits | rpc_impl/troops/commander.py:114-122 | the n waits are 2, 4, 8 and so on, doubling each time |
| RpcTroopsCommander.RefusalsSkip | rpc_impl/troops/commander.py:118-123 | a refused attempt moves the count to the next attempt |
| RpcTroopsCommander.Contact | rpc_impl/troops/commander.py:113-124 | the retry loop sleeps exactly the doubling waits, one per refusal, and ends with the wait doubled once per refusal |
| RpcTroopsCommander.CommanderBase.constructor | rpc_impl/troops/commander.py:20-26 | a new commander has empty id, name, place and endpoint, no missions, no leaders, and has sent and inserted nothing |
| RpcTroopsCommander.CommanderBase.AddMission | rpc_impl/troops/commander.py:58-75 | a mission that cannot get its sink is traced and changes nothing; otherwise it is filed as FileMission says |
| RpcTroopsCommander.CommanderBase.FileMission | rpc_impl/troops/commander.py:62-75 | the prepared mission is filed under its purpose, replacing an earlier one; placed All, every leader in registration order is sent its operation until one raises, which is traced; nothing else changes |
| RpcTroopsCommander.CommanderBase.AddSubordinate | rpc_impl/troops/commander.py:77-85 | the leader is filed under its id, then every stored mission is re-added in filing order; a mission that raises is traced and the replay goes on, so the sends are the whole traced replay |
| RpcTroopsCommander.CommanderBase.GetSubordinate | rpc_impl/troops/commander.py:87-95 | None for an unknown id; otherwise a copy of the stored record without its client; the stored record is unchanged |
| RpcTroopsCommander.CommanderBase.AcceptData | rpc_impl/troops/commander.py:97-106 | the batch Delivery names is inserted, nothing when there are no readings, and its exception is traced |
| RpcTroopsCommander.CommanderBase.Identify | rpc_impl/troops/commander.py:111-136 | the waits double from 2 seconds per refusal; every attempt refused, an unknown commander and a refused registration give their messages in that order; otherwise id, name and place are taken from the reply, a missing one raising, and the result is True |
| RpcTroopsLeader.LeaderBase.constructor | rpc_impl/troops/leader.py:33-36 | a new leader has no operations, no soldiers, no superior and has sent nothing |
| RpcTroopsLeader.LeaderBase.AddOperation | rpc_impl/troops/leader.py:38-54 | the operation is filed under its purpose, replacing an earlier one; placed All, every soldier in registration order is sent its order, cut to its weapons, until one raises, which is traced; soldiers and superior are unchanged |
| RpcTroopsLeader.LeaderBase.AddSubordinate | rpc_impl/troops/leader.py:56-64 | the soldier is filed under its id, then every stored operation is re-added in filing order; an operation that raises is traced and the replay goes on, so the sends are the whole traced replay |
| RpcTroopsLeader.LeaderBase.AcceptData | rpc_impl/troops/leader.py:66-69 | the data is sent unchanged to the superior's client; before joining the call raises TypeError, which is traced; nothing else changes |
| RpcTroopsLeader.NewcomerGetsEveryOperation | rpc_impl/troops/leader.py:56-64 | when no stored operation raises, a soldier that joins receives the order of every stored operation placed All |
| RpcTroopsLeader.MemberReached | rpc_impl/troops/leader.py:62-64 | when no stored operation raises, every registered soldier receives the order of every stored operation placed All |
| RpcTroopsSoldier.FirstDisarmed | rpc_impl/troops/soldier.py:51-52 | the number of entries get_orders gets through: all before the first whose event is already gone |
| RpcTroopsSoldier.Disarm | rpc_impl/troops/soldier.py:50-52 | the first n entries lose their event through the shallow copy; keys, fields and the other events are unchanged |
| RpcTroopsSoldier.Listing | rpc_impl/troops/soldier.py:49-53 | each purpose, in order, with its order's fields and no event |
| RpcTroopsSoldier.Assign | rpc_impl/troops/soldier.py:56-67 | a call that raises starts no sensing loop; one that succeeds starts exactly one more, after the earlier ones |
| RpcTroopsSoldier.SoldierBase.constructor | rpc_impl/troops/soldier.py:22-32 | a new soldier has empty id, name, place and endpoint, no orders, the weapons zero and random, and no events or loops |
| RpcTroopsSoldier.SoldierBase.AddOrder | rpc_impl/troops/soldier.py:55-67 | the new book and the trace are those of Assign, and the book invariant is kept |
| RpcTroopsSoldier.SoldierBase.GetOrders | rpc_impl/troops/soldier.py:48-53 | when every stored order still has its event, the listing is answered and every event is popped from the stored orders; otherwise KeyError is traced after the entries before it lost theirs |
| RpcTroopsSoldier.SoldierBase.ShowInfo | rpc_impl/troops/soldier.py:34-46 | the info carries the soldier's fields, its weapon names, and the orders listing or None when get_orders raised, with get_orders' effect on the book |
| RpcTroopsSoldier.ClearKeeps | rpc_impl/troops/soldier.py:59-61 | setting and deleting a stored order keeps the book invariant |
| RpcTroopsSoldier.StoreKeeps | rpc_impl/troops/soldier.py:63-67 | storing an order with a fresh event under a free purpose keeps the book invariant |
| RpcTroopsSoldier.AssignKeepsValid | rpc_impl/troops/soldier.py:56-67 | add_order keeps the book invariant whatever it raises |
| RpcTroopsSoldier.AssignSucceeds | rpc_impl/troops/soldier.py:56-67 | add_order succeeds exactly when the order has a hashable purpose, requirements and a trigger, and any order stored under the purpose still has its event |
| RpcTroopsSoldier.AssignStores | rpc_impl/troops/soldier.py:63-67 | after a successful add_order the purpose holds the order's fields with the new event, and the new loop runs with its requirements and trigger |
| RpcTroopsSoldier.AssignLeavesOthers | rpc_impl/troops/soldier.py:56-67 | add_order changes no entry but the one under the order's purpose |
| RpcTroopsSoldier.ReplacedLoopStops | rpc_impl/troops/soldier.py:59-61 | replacing an order sets the event of the replaced order, so its loop stops |
| RpcTroopsSoldier.FirstDisarmedIs | rpc_impl/troops/soldier.py:51-52 | the stop of get_orders is the first entry without an event |
| RpcTroopsSoldier.DisarmKeeps | rpc_impl/troops/soldier.py:50-52 | popping events keeps the book invariant |
| RpcTroopsSoldier.SecondGetOrdersRaises | rpc_impl/troops/soldier.py:50-52 | after one successful get_orders on a non-empty book, the next one raises at the first entry |
| RpcTroopsSoldier.ListedOrdersRefuseRepeats | rpc_impl/troops/soldier.py:59-60 | after get_orders, an order for a stored purpose raises KeyError and changes nothing |
| RpcTroopsSoldier.ReplacedMovesLast | rpc_impl/troops/soldier.py:61-67 | deleting then storing a purpose moves it to the end of the book, which keeps its size |

## Findings

| source | as written | input that shows it | evidently intended | confidence | as-written member | corrected member |
|---|---|---|---|---|---|---|
| model/commander.py:70-73 | each copy of the template is given its author with `mission.author = t_id`, but Mission is a namedtuple (model/objects.py:89-102), so the assignment raises AttributeError | a campaign for place "All" while one leader is registered: no leader gets a mission, the campaign is not kept, and POST /campaigns answers 500 | every registered leader receives one copy of the template authored with its id, and the campaign is kept | high; not executed | ModelCommander.Commander.AcceptCampaign, ModelCommander.ServingChangesRegistry | ModelCommander.Commander.ServeCampaign, ModelCommander.EveryLeaderGetsOneMission |

The REST handler of `controller/commander.py` follows the code as written:
it calls `AcceptCampaign`, so it refuses such campaigns.

## Left out

- Transport is not modelled: `requests`, `ServerProxy` and xmlrpc. A remote call becomes an entry appended to an outbox, or an outcome passed in as a parameter.
- Threads, `threading.Timer` firing, asyncio and every `main()` are not modelled. A timer is a record of what was started and cancelled. The callbacks it would run later are not modelled.
- The MongoDB connection and the time parsing in `MongoPush` are not modelled. Only the push guard is (rpc_impl/troops/commander.py:98-106).
- The `_working` loop of rpc_impl/troops/soldier.py and the sensing loops are not modelled. They run for ever and read hardware.
- `model/*.awake`, `Captain.generate_troops_info` and the POSTs that the sergeant's and the privates' `join` send are I/O. The model keeps only the request that each would send.
- get_campaigns in troops/commander.py:145-167 is not modelled. It only serialises the campaign list that `AcceptCampaign` builds.
- show_info, the `/ui` pages and the swagger spec routes are presentation only.
- show_info, retrieve_troop_info and get_subordinates of rpc_impl/troops/commander.py are not modelled. They only collect remote answers.
- The `print` in rpc_impl/commander.py's accept_data is not modelled.
- The routes that answer "not implemented yet" are not modelled: get_squad_soldiers, get_troop_leaders, get_commanders, `/error/squad` and `/error/troop` of troops/recruiter.py, and `/error/*` of controller/recruiter.py. Their only behaviour is a constant answer.
- Reading YAML files and config files is I/O, and so is a malformed recruit.yml. The parsed tables are inputs. YAML aliasing is not modelled.
- `str(id(info))` is an object address. The model states only that the id it gives is a fresh non-empty string of digits, not which one.
- JobInfo.GetId: md5 is a parameter. The model states which string is digested, not the digest. `hash()` is a parameter in the same way.
- generate_info/PrivateInfo rendering, the random sensor values and the reading value in a work post are not modelled. The model keeps what is posted and where, not the number read.
- Flask's own 404 and 405 bodies, the key order `jsonify` writes, and `json.dumps(sort_keys, indent)` are not modelled. Bodies are JSON values compared as values.
- The response object of `requests` is modelled only by its status code and body. A body that is not UTF-8 counts as a body that is not JSON.
- The mock plumbing of the test clients and every log line are not modelled.
- The join's failure when `.json()` cannot decode the answer is not modelled. It is an exception in the transport library.
- `asdict`/`to_dict` reflection, and the model calls not defined in these files (for example `register_commander_info`), are parameters of the handlers that use them.
- The `Recruiter.resolve_leader` of model/recruiter.py:70-83 indexes commander_cache and then asks the commander over REST. It is I/O, so the recruiter handlers take its answer as a parameter, and its KeyError for an uncached commander is not modelled.
- `x in list` compares elements structurally (`JsonValues.In`). Python's `==` also equates `True`, `1` and `1.0`, and dictionaries that differ only in key order. Those equalities are not modelled.
