# gotham-iot-testbed core, modelled in Dafny

Gotham is an IoT testbed built on GNS3. Python scripts lay out a scenario on a
GNS3 server: they create routers, switches and IoT device containers, link them,
and install and configure VyOS routers over their Telnet consoles. Each device
container runs a small Python program with a few settings taken from the
environment. This project models the parts of that code whose behaviour is
fixed by the code itself, and proves what they do.

Modules, one file each:

- `PyErrors` (`pyerrors.dfy`): `Option`, `Result` and the Python exceptions the
  code can raise (`AssertionError`, `AddressValueError`, `TypeError`,
  `StopIteration`, `RuntimeError`, `UnboundLocalError`, `ZeroDivisionError`,
  `sys.exit`).
- `PyStr` (`pystr.dfy`): the string operations used by the code:
  - `split(sep)` and `sep.join`, with `split` proved to invert `join`;
  - `strip()`, `split()[0]` and `str.isspace`.
- `Base64` (`base64.dfy`):
  - `base64.b64encode`, per section 4 of RFC 4648;
  - the decoder that `base64 --decode` runs on the router, which skips line breaks;
  - a proof that decoding inverts encoding.
- `Telnet` (`telnet.dfy`): a `telnetlib.Telnet` session as a class.
  - The console is an oracle: the text it prints during each successive wait is
    fixed when the connection opens.
  - A wait whose text never shows the pattern is a timeout, and `expect` returns
    `-1` for it.
  - `Run` plays a script of `write`/`expect` exchanges.
- `IPv4` (`ipv4.dfy`): the parts of `ipaddress.IPv4Address` the code relies on:
  - the strict dotted-quad parser;
  - printing;
  - `address + n` with its range check.
- `Topology` (`topology.dfy`): the GNS3 project as a class that records the REST
  calls that change it (node, link, interface file, drawing). It also holds the
  grid arithmetic of a device cluster, written with Python's `%` and `int(p/2)`.
- `Gns3Utils` (`gns3utils.dfy`), from `gns3/gns3utils.py`:
  - the VyOS install and configure dialogues;
  - the static interface file and the template lookup;
  - the console host choice and the link filter;
  - `create_cluster_of_devices`.
- `Scenario` (`scenario.dfy`): the copies in `gns3/scenario.py`. They agree with
  `gns3utils.py` except for the interface-file function and the cluster builder
  (see Findings).
- `EnvConfig` (`envconfig.dfy`): the settings dictionary of the container
  scripts, overridden in place from the environment.
- `Ping` (`ping.dfy`): the `ping` retry loop of both container scripts. The exit
  code of each run is an oracle.
- `CoapCloud` (`coapcloud.dfy`), the set-up of `coap_cloud.py`:
  - `iprange`;
  - the parsing of `COAP_ADDR_LIST`;
  - the checks for the required binaries;
  - the ping of every address.
- `StreamConsumer` (`consume.dfy`): `consume.py`:
  - its settings;
  - the ping of the stream server;
  - the `ffmpeg` restart loop.
- `CreateTemplates` (`createtemplates.dfy`): the helpers of
  `src/create_templates.py`:
  - `clean_name` and `dict_to_env_str`;
  - the first rule naming a target;
  - the `--tag\s+([^ ]+)` search over a target's recipes, written out as a
    scanner with the backtracking of the greedy `\s+`;
  - the image name;
  - the first Python prerequisite whose `config` is found.

Inputs that come from outside the program are parameters:

- what a console prints;
- the exit codes of `ping` and `ffmpeg`;
- whether a binary is on the `PATH`;
- the MD5 digest function;
- the `config` dictionary found in a Python file;
- the environment.

## Model

| member | source | states |
|---|---|---|
| PyStr.Split | Dockerfiles/iot/city_power_cloud/coap_cloud.py:171 | `s.split(sep)` gives at least one piece, no piece holds the separator, and joining the pieces with it gives `s` back |
| PyStr.SplitJoin | Dockerfiles/iot/city_power_cloud/coap_cloud.py:171-173 | splitting pieces joined with a separator they do not hold gives the pieces back |
| PyStr.SplitUnlines | gns3/gns3utils.py:135-144 | a text of newline-terminated lines splits at `\n` into those lines and one empty piece |
| PyStr.Strip | Dockerfiles/iot/city_power_cloud/coap_cloud.py:171 | `strip()` is the slice left after the leading and trailing whitespace; it neither starts nor ends with whitespace, and every non-whitespace character of the input lies inside it |
| PyStr.TakeWord | gns3/gns3utils.py:544 | the first word is the longest whitespace-free prefix |
| Base64.SextetChar | gns3/gns3utils.py:513 | each 6-bit value has an alphabet character that reads back as that value |
| Base64.DecodeEncode | gns3/gns3utils.py:512-513 | decoding the Base64 encoding of any bytes gives the bytes back |
| Base64.EncodeAlphabet | gns3/gns3utils.py:528 | an encoding holds only alphabet characters and `=`, so no quote and no line break |
| Base64.DropNewlinesAppend | gns3/gns3utils.py:534 | removing line breaks distributes over concatenation |
| Base64.RemoteDecodeEchoed | gns3/gns3utils.py:528-534 | the file `echo` writes (the encoding and a newline) decodes on the router to the original bytes |
| Telnet.SearchFrom | gns3/gns3utils.py:540 | the search finds the leftmost position where the pattern matches, and none before it |
| Telnet.Matched | gns3/gns3utils.py:540-544 | a match exists exactly when the search finds one; a literal match is the literal, and a digest match has the `[0-9a-f]{32}  config.sh` shape |
| Telnet.UpToMarker | gns3/gns3utils.py:419 | when the marker comes, `read_until` returns text that ends with the marker |
| Telnet.WaitCountSingle | gns3/gns3utils.py:422-490 | a script whose every exchange waits once makes one wait per line |
| Telnet.Session.constructor | gns3/gns3utils.py:418 | a new connection is open, has sent nothing and has made no wait |
| Telnet.Session.Write | gns3/gns3utils.py:422 | `write` appends exactly its line to what was sent |
| Telnet.Session.ReadUntil | gns3/gns3utils.py:419 | `read_until` consumes one wait and returns the console text up to the marker |
| Telnet.Session.Expect | gns3/gns3utils.py:423 | `expect` consumes one wait; its index is -1 exactly when the pattern does not occur, 0 otherwise, and it returns the matched text |
| Telnet.Session.Run | gns3/gns3utils.py:422-490 | a script sends exactly its lines in order, whatever the console prints, and makes exactly its waits |
| Telnet.Session.Close | gns3/gns3utils.py:418 | leaving the `with` block closes the connection |
| Gns3Utils.InstallScriptSends | gns3/gns3utils.py:422-492 | the install script's lines are the fifteen lines `vyos`, `vyos`, `install image`, `Yes`, `Auto`, empty, `Yes`, three empty, `vyos`, `vyos`, empty, `poweroff`, `y` |
| Gns3Utils.InstallVyosImageOnNode | gns3/gns3utils.py:408-496 | the install dialogue sends exactly those fifteen lines whatever the console prints, closes the connection, and kills the viewer exactly when `pre_exec` was given |
| Gns3Utils.EchoAppendQuoted | gns3/gns3utils.py:528 | a single-quoted argument without a quote reaches `echo` whole |
| Gns3Utils.UploadRoundTrip | gns3/gns3utils.py:512-534 | the shell hands the Base64 text to `echo` intact, and the remote decoder turns the written file back into the script's bytes |
| Gns3Utils.ChecksumToken | gns3/gns3utils.py:544 | the first word of a matched md5sum line is its 32 hex digits |
| Gns3Utils.ConfigureVyosImageOnNode | gns3/gns3utils.py:499-573 | with no md5sum line: 5 lines sent (login, upload, decode, `md5sum`), one warning, connection closed, viewer not killed; otherwise all 9 lines in order, a mismatch warning exactly when the digests differ, and the viewer killed when `pre_exec` was given |
| Gns3Utils.StaticInterfaceConfigLines | gns3/gns3utils.py:131-144 | the file is exactly eight newline-terminated lines in fixed order, starting `# autogenerated`; the nameserver line names the gateway when no nameserver is given |
| Gns3Utils.TemplateIdFromName | gns3/gns3utils.py:147-152 | the identifier of the first template with that name; None exactly when no template has it |
| Gns3Utils.TelnetHostPort | gns3/gns3utils.py:169-179 | AssertionError exactly when the console is not telnet; otherwise the port is `console`, and the host is the server address for `0.0.0.0`/`::` and `console_host` otherwise |
| Gns3Utils.RelevantNodeAt | gns3/gns3utils.py:195-197 | the first relevant node, in list order, whose id is that link end; no earlier relevant node has that id; None exactly when none is |
| Gns3Utils.LinkedNode | gns3/gns3utils.py:193-198 | the first relevant node at the first end, in order, that has one; no earlier end has a relevant node; None exactly when no end is relevant |
| Gns3Utils.FilterLinks | gns3/gns3utils.py:200-206 | the filter loop builds exactly the filtered list |
| Gns3Utils.FilteredLinksSound | gns3/gns3utils.py:200-206 | every kept entry is `<relevant node> <--> <node name>` for a link with a relevant end, and there are at most as many entries as links |
| Gns3Utils.FilteredLinksComplete | gns3/gns3utils.py:201-204 | every link with a relevant end is kept |
| Gns3Utils.DeviceInterfaceFile | gns3/gns3utils.py:286-288 | a device's interface file is the eight-line `eth0` stanza with its address, netmask `255.255.0.0` and gateway (also nameserver) `192.168.0.1` |
| Gns3Utils.ConfiguredStep | gns3/gns3utils.py:287-288 | configuring one more device extends the configured prefix by that device's interface call |
| Gns3Utils.ConfigureDevices | gns3/gns3utils.py:285-290 | device `i` gets address `start_ip + i`; the loop fails with AddressValueError exactly when an address passes 255.255.255.255, after configuring the devices before it |
| Gns3Utils.CreateClusterOfDevices | gns3/gns3utils.py:258-298 | AssertionError when `num >= 64` or negative; ZeroDivisionError for devices with 0 per row; AddressValueError when a device address passes 255.255.255.255, or when the label's `start_ip+num_devices` (computed before the `-1`) does, or when that `-1` goes below 0.0.0.0; success exactly otherwise, and then switch, devices, links, interface files and label are all recorded |
| Gns3Utils.ClusterAssembled | gns3/gns3utils.py:285-298 | the grid, the interface calls and the label make a complete cluster |
| Topology.Project.CreateNodeAt | gns3/gns3utils.py:209-217 | `create_node` records a node at that position from that template, and the new node's id is the request's index |
| Topology.Project.Link | gns3/gns3utils.py:239-246 | `create_link` records a link between the two adapters |
| Topology.Project.SetNodeNetworkInterfaces | gns3/gns3utils.py:249-255 | the interface file post is recorded for that node |
| Topology.Project.DrawLabel | gns3/gns3utils.py:293-296 | the drawing post is recorded with its position and text fields |
| Topology.PyMod | gns3/gns3utils.py:270 | Python's `%`: the mathematical remainder for a positive divisor, and a remainder in `(b, 0]` for a negative one |
| Topology.TruncHalf | gns3/gns3utils.py:262 | `int(p/2)` truncates toward zero |
| Topology.RowStep | gns3/gns3utils.py:272-273 | `dy` grows by one grid unit exactly after the last device of a row |
| Topology.CellsDistinct | gns3/gns3utils.py:269-270 | with a positive row length and nonzero grid unit, two devices never share a position |
| Topology.RowsOfDevices | gns3/gns3utils.py:268-273 | device `i` lies in row `i div p`, so `row * p <= i < (row + 1) * p` |
| Topology.LaidOutExtends | gns3/gns3utils.py:285-296 | later requests leave a laid-out grid intact |
| Topology.PlaceDevices | gns3/gns3utils.py:266-276 | device `i` is placed at `(start_x + (i % p)*g, start_y + row(i)*g)`, with ids in order; ZeroDivisionError before any device when `p == 0`; `Yf` is the start plus the rows passed |
| Topology.LinkDevices | gns3/gns3utils.py:277-283 | device `k` is linked from adapter 0 to switch adapter `k + 1`, one link per device, in order |
| Topology.CreateGrid | gns3/gns3utils.py:258-283 | the size assertion, the switch at `(start_x + int(p/2)*g, start_y - g)`, the devices and the links; AssertionError after creating the switch for a negative count |
| Scenario.InstallVyosImageOnNode | gns3/scenario.py:350-427 | the same fifteen lines as the `gns3utils.py` dialogue, and the connection closed |
| Scenario.ConfigureVyosImageOnNode | gns3/scenario.py:430-492 | the same lines and warnings as the `gns3utils.py` dialogue, without a viewer |
| Scenario.StaticInterfaceConfigFile | gns3/scenario.py:75-88 | leaving out `nameserver` is a TypeError; any given value (None included) gives the `gns3utils.py` file |
| Scenario.GridHasNoInterfaces | gns3/scenario.py:188-224 | the grid part of a cluster holds no interface post |
| Scenario.CreateClusterOfDevices | gns3/scenario.py:188-241 | as written: with at least one device, the four-argument call fails with TypeError after the grid and links and before any interface post; success exactly for zero devices and a nonzero start address |
| Scenario.FourArgumentCallFails | gns3/scenario.py:229 | the call at line 229 fails, while passing `None` explicitly would give the defaulted file |
| IPv4.ParseOctet | Dockerfiles/iot/city_power_cloud/coap_cloud.py:19-21 | an octet is 1 to 3 ASCII digits, no leading zero, at most 255; anything else is AddressValueError |
| IPv4.DecimalValue | Dockerfiles/iot/city_power_cloud/coap_cloud.py:25 | printing a number in decimal and reading it back gives the number |
| IPv4.OctetsRoundTrip | Dockerfiles/iot/city_power_cloud/coap_cloud.py:20-25 | an address rebuilt from its four octets is itself |
| IPv4.FromOctetsRoundTrip | Dockerfiles/iot/city_power_cloud/coap_cloud.py:20-25 | the octets of an address built from four octets are those octets |
| IPv4.ParseFormat | Dockerfiles/iot/city_power_cloud/coap_cloud.py:19-25 | parsing the printed form of an address gives the address |
| IPv4.FormatParse | Dockerfiles/iot/city_power_cloud/coap_cloud.py:19 | a text that parses is the canonical printed form of its address |
| IPv4.FormatDigits | gns3/gns3utils.py:294 | a printed address holds only digits and dots |
| IPv4.Offset | gns3/gns3utils.py:288 | `address + k` is that address exactly when it stays in range, and AddressValueError otherwise |
| EnvConfig.Overridden | Dockerfiles/iot/city_power_cloud/coap_cloud.py:160-164 | the override keeps the key set; a key the environment defines takes its text, and the others keep their values |
| EnvConfig.OverrideIdempotent | Dockerfiles/iot/city_power_cloud/coap_cloud.py:160-164 | overriding twice from the same environment is overriding once |
| EnvConfig.OverrideUnrelated | Dockerfiles/iot/stream_consumer/consume.py:25-29 | an environment defining none of the keys changes nothing |
| EnvConfig.Config.constructor | Dockerfiles/iot/city_power_cloud/coap_cloud.py:149-156 | the dictionary literal maps each key to its default |
| EnvConfig.Config.OverrideFromEnvironment | Dockerfiles/iot/city_power_cloud/coap_cloud.py:160-164 | the in-place loop leaves exactly the overridden dictionary |
| Ping.FirstRunWith | Dockerfiles/iot/stream_consumer/consume.py:11-14 | the first run with that exit code, and no earlier one |
| Ping.Ping | Dockerfiles/iot/stream_consumer/consume.py:10-16 | `attempts <= 0` fails on the unbound `result`; otherwise there are at most `attempts` runs, ending at the first success, and the answer is whether the last run's code was 0 |
| Ping.PingSucceedsIffSomeRun | Dockerfiles/iot/city_power_cloud/coap_cloud.py:34-40 | `ping` answers true exactly when one of its runs succeeds |
| CoapCloud.Consecutive | Dockerfiles/iot/city_power_cloud/coap_cloud.py:24-25 | `count` addresses, the `i`-th being `start + i` |
| CoapCloud.IpRange | Dockerfiles/iot/city_power_cloud/coap_cloud.py:17-26 | the single parsed address without an end; otherwise the parse errors, AssertionError when start is above end, or every address from start to end |
| CoapCloud.Ascending | Dockerfiles/iot/city_power_cloud/coap_cloud.py:23-26 | the append loop gives the consecutive addresses from start to end |
| CoapCloud.IpRangeBounds | Dockerfiles/iot/city_power_cloud/coap_cloud.py:20-26 | a range holds `end - start + 1` ascending addresses from start to end; reversed ends are AssertionError |
| CoapCloud.IpRangeSingle | Dockerfiles/iot/city_power_cloud/coap_cloud.py:18-19 | without an end the range is the start alone, and it prints as the text given |
| CoapCloud.StripAll | Dockerfiles/iot/city_power_cloud/coap_cloud.py:171 | `map(str.strip, ...)` strips each piece in place |
| CoapCloud.FlattenAppend | Dockerfiles/iot/city_power_cloud/coap_cloud.py:171-173 | extending over two runs of items gives the first run's addresses then the second's, or the first error |
| CoapCloud.FlattenMembers | Dockerfiles/iot/city_power_cloud/coap_cloud.py:171-173 | a successful list holds exactly the addresses of the items' ranges |
| CoapCloud.FlattenFirstError | Dockerfiles/iot/city_power_cloud/coap_cloud.py:171-173 | a failed list carries the error of the first failing item |
| CoapCloud.ExpandAll | Dockerfiles/iot/city_power_cloud/coap_cloud.py:171-173 | the `extend` loop gives the flattened expansions, stopping at the first error |
| CoapCloud.AddressList | Dockerfiles/iot/city_power_cloud/coap_cloud.py:169-174 | `COAP_ADDR_LIST` is split at `;`, stripped, empty items skipped, and each item split at `-`, stripped and given to `iprange` (three parts are a TypeError) |
| CoapCloud.PingAll | Dockerfiles/iot/city_power_cloud/coap_cloud.py:184-187 | success exactly when every address answers within three pings; otherwise the exit names the first address that is down |
| CoapCloud.SetUp | Dockerfiles/iot/city_power_cloud/coap_cloud.py:149-187 | an empty or missing list exits; a list error propagates; a missing `ping` or `coap-client` exits; otherwise it succeeds exactly when every address of the list answers within three pings, and it exits with `[ set up ] <address> is down` for the first address that does not; on success the addresses are the list's |
| StreamConsumer.Effective | Dockerfiles/iot/stream_consumer/consume.py:25-29 | a setting is the environment's text when defined, the default otherwise |
| StreamConsumer.EffectiveIsOverridden | Dockerfiles/iot/stream_consumer/consume.py:25-29 | a text setting read from the overridden dictionary is its `Effective` value |
| StreamConsumer.StreamCommand | Dockerfiles/iot/stream_consumer/consume.py:38-40 | `ffmpeg -i rtsp://addr:port/name -f null /dev/null` |
| StreamConsumer.ReadSettings | Dockerfiles/iot/stream_consumer/consume.py:19-29 | the server address, port and stream name after the override, with defaults `localhost`, `8554`, `mystream` |
| StreamConsumer.StartUp | Dockerfiles/iot/stream_consumer/consume.py:19-40 | exits without a `ping` binary; exits when no ping of the server succeeds; otherwise gives the stream command of the settings |
| StreamConsumer.StreamLoop | Dockerfiles/iot/stream_consumer/consume.py:43-58 | the loop exits exactly at the first process with exit code 1; every other code leads to a restart |
| CreateTemplates.CleanName | src/create_templates.py:20-23 | same length; letters, digits and `.` kept, every other character replaced by `-` |
| CreateTemplates.CleanNameAlphabet | src/create_templates.py:20-23 | a cleaned name uses only letters, digits, `.` and `-` |
| CreateTemplates.CleanNameIdempotent | src/create_templates.py:20-23 | cleaning is idempotent |
| CreateTemplates.CleanNameKeepsAllowed | src/create_templates.py:20-23 | a name of allowed characters is unchanged |
| CreateTemplates.FirstRuleIndex | src/create_templates.py:26-27 | the index of the first rule naming the target |
| CreateTemplates.GetMakeRuleByTargetName | src/create_templates.py:26-27 | the first rule whose targets hold the target; StopIteration exactly when no rule does |
| CreateTemplates.EnvEntries | src/create_templates.py:32-33 | one `k=v` entry per item, in dictionary order |
| CreateTemplates.DictToEnvStr | src/create_templates.py:30-34 | the append loop gives the entries joined with `\n` |
| CreateTemplates.EmptyEnvStr | src/create_templates.py:30-34 | an empty dictionary gives `""` |
| CreateTemplates.EnvStrRoundTrip | src/create_templates.py:30-34 | splitting the text at newlines gives one line per item, and each line's first `=` separates the key from the value |
| CreateTemplates.EntryParts | src/create_templates.py:33 | in `k=v` with no `=` in the key, the first `=` follows the key |
| CreateTemplates.NonBlanks | src/create_templates.py:88 | `[^ ]+` takes the longest run of characters other than a space |
| CreateTemplates.Spaces | src/create_templates.py:88 | `\s+` takes at most the longest whitespace run |
| CreateTemplates.SpaceCut | src/create_templates.py:88 | backtracking leaves `\s+` the longest length after which `[^ ]+` can start |
| CreateTemplates.SearchTag | src/create_templates.py:88 | `re.search` gives the group of a match at some position with no match before it (the leftmost), or None when no position matches |
| CreateTemplates.TagShape | src/create_templates.py:88-90 | a match is `--tag`, whitespace, then a non-empty group with no space that runs up to a space or the end |
| CreateTemplates.TagOfRecipe | src/create_templates.py:88-90 | for a recipe `... --tag T ...` with no `-` before the option, the tag found is `T` |
| CreateTemplates.FirstFound | src/create_templates.py:86-92 | the first recipe with a match, and its group; none before it matches |
| CreateTemplates.FirstFoundLoop | src/create_templates.py:86-95 | the loop stops at the first match; RuntimeError when there is none |
| CreateTemplates.DockerTag | src/create_templates.py:84-95 | the tag of the first matching recipe, later recipes ignored; RuntimeError naming the target when none matches |
| CreateTemplates.FoundTagShape | src/create_templates.py:94 | a found tag is non-empty and has no space, so the `not docker_tag` test only fails when nothing matched |
| CreateTemplates.DockerImage | src/create_templates.py:98-101 | the tag itself if it holds `:`, else the tag plus `:latest`; the image always holds `:` |
| CreateTemplates.DockerImageIdempotent | src/create_templates.py:98-101 | defaulting an image again changes nothing |
| CreateTemplates.PythonDeps | src/create_templates.py:59 | exactly the prerequisites ending in `.py` |
| CreateTemplates.PythonDepsAppend | src/create_templates.py:59 | the selection keeps the prerequisites' order: selecting from two runs gives the first run's Python files then the second's, and one prerequisite is kept exactly when it ends in `.py` |
| CreateTemplates.FirstConfig | src/create_templates.py:70-79 | the first Python file whose `config` is found; no earlier file's is |
| CreateTemplates.EnvTextFromFirstConfig | src/create_templates.py:59-81 | the environment text is that of the first prerequisite, in `depends` order, that is a Python file whose `config` is found |
| CreateTemplates.EnvTextWithoutConfig | src/create_templates.py:59-81 | when no Python prerequisite has a `config`, the environment text is empty |
| CreateTemplates.EnvVars | src/create_templates.py:67-81 | `env_vars` comes from the first file whose `config` is found, and is `""` when none is; the files scanned are those up to and including that one |
| CreateTemplates.ConfigSearch | src/create_templates.py:70-81 | the search loop breaks at the first file whose `config` is found |
| CreateTemplates.TemplateForTarget | src/create_templates.py:56-103 | StopIteration without a rule; RuntimeError without a tag; otherwise the template is named after the cleaned tag, with the defaulted image and the environment text |

## Left out

- Printing and the UTF-8 decoding of console output. The dialogues decode every reply with the strict `decode("utf-8")`, so a reply that is not valid UTF-8 raises UnicodeDecodeError, and the dialogue ends there without killing the viewer. Console replies are modelled as text, so this error path is not modelled.
- Timing:
  - `time.sleep` pacing;
  - the timeouts of `expect` (a timeout is a console reply without the pattern);
  - `read_until` blocking without a timeout (it returns what the console printed);
  - the active/inactive wait of `ffmpeg` and its termination.
- All HTTP requests. A request that changes the project is a recorded `ApiCall`, and a node's or link's id is the index of the request that made it. HTTP errors (`raise_for_status`) are not modelled.
- The JSON payload text of node, link and drawing requests. `ApiCall` carries the fields, and the label's SVG and the interface file are given as separate text functions.
- The netmask warning in `set_node_network_interfaces`. The cluster always passes a `/16` interface, so it never fires.
- The shell's `>>` appends to `config.b64`. A file left over from an earlier upload is not modelled: the remote file is assumed to hold only this upload.
- MD5 (RFC 1321): the digest is an uninterpreted function parameter. Reading files is left out as well.
- The `pre_exec` viewer process: only whether it is killed is modelled.
- Regex name filters on nodes. The list of relevant nodes is given to the link filter as a parameter.
- The threads, events and signals of `coap_cloud.py` (telemetry and CoAP ping) and the pre-shared key file.
- `shutil.which`: whether a binary is found is a parameter. The `coap-client` lookup in `coap_cloud.py` reads `os.environ["PATH"]`, which raises KeyError when `PATH` is unset. `CoapCloud.SetUp` does not model that KeyError: it treats the lookup as only finding or not finding the binary.
- `int()` conversion of `ACTIVE_TIME`/`INACTIVE_TIME`, and the ValueError a non-numeric value would raise in the stream loop.
- Float settings: they are carried as `real` and never computed with.
- StreamConsumer.StreamLoop: the `while True` loop is modelled over its first `rounds` rounds; an infinite run is the case where no round in the bound exits.
- CreateTemplates: the loop over all docker targets, the REST template creation, the Open vSwitch template and the scanned-files warning are orchestration around `TemplateForTarget`.
- `str()` of non-text `config` values in `dict_to_env_str`: values are given as the text they print as.
- `parse_project_makefile` and `get_variable_from_file` are not part of this model. The rules and each file's `config` are parameters.
- Telnet transport errors: a refused connection, `EOFError` from `expect` or `read_until` on a closed console, and socket errors on `write` are not modelled. On those paths the `with` block closes the connection without killing the viewer.
- Module-level orchestration scripts (scenario main block, topology and run scripts) and `src/parse.py`.

## Findings

| source | as written | input that shows it | evidently intended | confidence | as-written member | corrected member |
|---|---|---|---|---|---|---|
| gns3/scenario.py:229 | `get_static_interface_config_file("eth0", start_ip+i, netmask, "192.168.0.1")` calls with four arguments a function (scenario.py:75) whose `nameserver` parameter has no default | `create_cluster_of_devices` with `num_devices = 1` and `devices_per_row = 10` raises TypeError after creating the switch, the device and the link, and before posting any interface file | the five-parameter function with `nameserver=None` defaulting to the gateway, as `gns3/gns3utils.py:131` declares it; then every device gets its interface file | not executed | Scenario.CreateClusterOfDevices | Gns3Utils.CreateClusterOfDevices |
