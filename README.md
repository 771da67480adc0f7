# Node agent hardware inventory and configuration store, in Dafny

This project models the two parts of the node agent whose behaviour can be
stated exactly, and proves properties of that model.

- **Hardware inventory** (`hardware.dfy`, from `src/hardware.rs`). This covers:
  - the byte-to-GB and byte-to-GiB conversions;
  - the closed vendor-name table;
  - the merge of the bundled VRAM table's AMD and NVIDIA sections;
  - the device loop of `list_pci_gpus`:
    - keep only display-class devices;
    - parse the vendor and device ids with `trim_start_matches("0x")` and `u16::from_str_radix(_, 16)`;
    - look the ids up in the PCI database and map the vendor;
    - look the VRAM up by the trimmed device text;
  - the aggregation of `collect_client_hardware` into the `NodeHardware` snapshot.

  The device loop is a method proved against a value-level specification. A device's fate is `InspectDevice`, and the run over devices is `Collect`. Lemmas about `Collect` state:
  - the first failure wins;
  - enumeration order is kept;
  - the number of GPUs equals the number of devices that yield one.
- **Configuration store** (`config.dfy`, from `src/config.rs`). The file `config.env` is a `ConfigFile` object: whether it exists, and its text. Its methods mirror `ensure_config_file`, `create_config_file`, `lookup_configuration` and `write_new_auth_token`. The token rewrite's loop is a method proved against `RewrittenLines`. Lemmas give round trips:
  - create then load;
  - create then rotate;
  - rotate then load;
  - rotating twice.
- **Rust string operations** (`text.dfy`). These are the parts of Rust's `str` that the two files rely on:
  - `trim`, with Unicode White_Space;
  - `starts_with`;
  - `trim_start_matches`;
  - `lines`, which splits at `'\n'` and drops a `'\r'` before it; a final line ending does not start an extra empty line;
  - `join("\n")`;
  - `writeln!`-style termination.

  Lemmas relate `Lines` to `Join` and to terminated output.
- `wrappers.dfy` holds `Option` and `Result`.

Platform reads are inputs to the model, not I/O:
- the `sysinfo` memory, CPU and disk facts;
- the text of each PCI device's `class`, `vendor` and `device` files, with `None` for a file that cannot be read;
- the PCI database;
- the parsed VRAM table, with `None` for a table that does not parse.

The dotenv loader is not modelled. It is abstracted as follows:
- the value of `KEY` is what follows `KEY=` on the first line of the file that starts with `KEY=`;
- a key with no such line is a missing variable.

Two facts about the store that the model keeps as the code has them:
- **Overrides for an existing file.** `ensure_config_file` ignores the overrides whenever the file exists (`src/config.rs:53`, `src/config.rs:66-70`). No existing value is compared or rewritten, and `EnsureConfigFile` states exactly that.
- **Creation in three writes.** `create_config_file` writes the three lines with three separate `writeln!` calls (`src/config.rs:89-100`), so creation is not atomic.

## Model

| member | source | states |
|---|---|---|
| Hardware.BytesToGb | src/hardware.rs:202-204 | the result is the floor of bytes / 10^9: `r·10^9 <= bytes < (r+1)·10^9` |
| Hardware.BytesToGib | src/hardware.rs:206-208 | the result is the floor of bytes / 2^30: `r·2^30 <= bytes < (r+1)·2^30` |
| Hardware.GibNeverExceedsGb | src/hardware.rs:202-208 | for every byte count the GiB figure is at most the GB figure |
| Hardware.MapVendorToApiEnum | src/hardware.rs:210-217 | `"AMD"`, `"NVIDIA"`, `"INTEL"` each come back exactly for their one vendor name (both directions); every other name gives `None` |
| Hardware.MergeVramSections | src/hardware.rs:222-230 | the merged keys are the union of the two sections (an absent section adds none); a key in the NVIDIA section has its NVIDIA value; a key only in the AMD section has its AMD value |
| Hardware.LoadGpuVramMap | src/hardware.rs:223-230 | extending an empty map with AMD and then NVIDIA yields exactly that merge |
| Hardware.SysfsIdParses | src/hardware.rs:147-151 | an id as sysfs prints it (`"0x"` and four lower-case hex digits) parses back to that 16-bit value |
| Hardware.ParseIdRejects | src/hardware.rs:147-165 | after stripping every leading `"0x"` and one `'+'`, the id is accepted iff what is left is non-empty, all hex digits of either case, and at most 0xFFFF; when accepted, its value is the hex value of the digits |
| Hardware.ParseIdIgnoresLeadingPrefix | src/hardware.rs:147-148 | one more leading `"0x"` never changes the parse, so `"0x0x10DE"` parses as `"10DE"` does |
| Hardware.ParseIdSignAndBarePrefix | src/hardware.rs:147-151 | `"+ff"` parses as 0xff, and `"0x"` alone is rejected |
| Hardware.Resolve | src/hardware.rs:167-179 | a parsed display device yields a GPU iff its vendor id is in the database, the vendor name maps to a supported vendor, and the device id is in that vendor's table; the GPU's vendor, type and VRAM come from those tables, and its VRAM is the entry for the trimmed device text or 0 |
| Hardware.NonDisplayDeviceSkipped | src/hardware.rs:135-137 | a device whose trimmed class does not start with `"0x03"` is skipped, whatever its vendor and device files hold |
| Hardware.ScanIgnoresNonDisplayDevice | src/hardware.rs:121-137 | inserting such a device anywhere in the enumeration leaves the result of the device loop unchanged, even when its ids are malformed or unreadable |
| Hardware.MalformedVendorIdFails | src/hardware.rs:147-151 | a display device whose vendor text does not parse fails with `InvalidVendorId` of that text |
| Hardware.MalformedDeviceIdFails | src/hardware.rs:161-165 | a display device with a good vendor id whose device text does not parse fails with `InvalidDeviceId` of that text |
| Hardware.WellFormedDisplayDeviceResolved | src/hardware.rs:127-179 | a display device whose two ids parse yields exactly what `Resolve` gives for those ids and its trimmed device text |
| Hardware.CollectAppend | src/hardware.rs:121-182 | running the loop over two device runs one after the other: the first run's failure wins, then the second's; otherwise the GPU lists concatenate |
| Hardware.CollectSucceedsIff | src/hardware.rs:121-182 | the listing succeeds iff no device fails |
| Hardware.CollectStopsAtFirstFailure | src/hardware.rs:121-182 | the reported error is that of the first failing device |
| Hardware.CollectContents | src/hardware.rs:121-182 | a successful listing has one GPU per device that yields one, and no others; they come in enumeration order, the k-th such device's GPU sitting at the count of GPU-yielding devices before it |
| Hardware.InspectEntry | src/hardware.rs:122-179 | the loop body, with its early returns and `continue`, decides for one device exactly what `InspectDevice` specifies |
| Hardware.ListPciGpus | src/hardware.rs:108-183 | the device loop returns exactly the specified listing; an unparsable VRAM table fails before any device is read |
| Hardware.RootDiskIndex | src/hardware.rs:34-37 | the first disk mounted at `"/"`, or none |
| Hardware.CollectClientHardware | src/hardware.rs:13-76 | a GPU-listing error is passed through. Otherwise: memory is the GiB figure; cores is the CPU count; storage is the GB figure of the first root disk, or 0. With no GPU, the count is 0, vendor and type are `"UNKNOWN"`, and memory is 0. With GPUs, the count is their number modulo 256 and vendor, type and memory are the first GPU's |
| Text.Trim | src/hardware.rs:127-133 | the result is no longer than the input, and is empty or starts and ends with a non-whitespace character |
| Text.TrimStartMatches | src/hardware.rs:147-148 | the result is a suffix of the input that does not start with the pattern, and what was removed is a whole number of copies of the pattern |
| Text.LinesHaveNoLineFeed | src/config.rs:113 | no line that `lines()` yields contains `'\n'` |
| Text.LinesOfTerminated | src/config.rs:89-100 | lines written each followed by `"\n"` read back as exactly those lines, when none holds `'\n'` or ends in `'\r'` |
| Text.LinesOfJoin | src/config.rs:127 | lines joined by `"\n"` read back as the same lines, except that a blank last line is lost, when no line holds `'\n'` and no line but the last ends in `'\r'` |
| Config.LoadConfiguration | src/config.rs:32-43 | loading succeeds iff `NODE_ID`, `API_URL` and `AUTH_TOKEN` are all assigned and none is empty, and then returns `(node id, URL, token)`. A missing `API_URL` is reported first, then a missing `AUTH_TOKEN`, then a missing `NODE_ID`; with all three assigned, an empty one gives the empty-field error |
| Config.ReplaceTokenLines | src/config.rs:111-120 | the loop keeps the line count; each line starting with `AUTH_TOKEN=` becomes `AUTH_TOKEN=<new>`; each other line stays unchanged at its index; `replaced` is true iff some line was a token line |
| Config.ConfigFile.CreateConfigFile | src/config.rs:73-103 | the file exists and holds exactly `NODE_ID=n`, `API_URL=u`, `AUTH_TOKEN=trim(t)`, each ending in `"\n"`, whatever it held before |
| Config.ConfigFile.EnsureConfigFile | src/config.rs:47-71 | an existing file is kept unchanged, whatever overrides are given. A missing file with any override absent is an error and stays missing. Otherwise the file is created from the three overrides |
| Config.ConfigFile.LookupConfiguration | src/config.rs:18-44 | first ensures the file, passing its error through; then loads the resulting text |
| Config.ConfigFile.WriteNewAuthToken | src/config.rs:105-130 | a missing file is an error and stays missing; otherwise the text becomes the rewritten lines joined by `"\n"` with no final newline |
| Config.TemplateLines | src/config.rs:89-100 | for a node id and URL without `'\n'` or a final `'\r'`, and a trimmed token without `'\n'`, a created file reads as exactly its three lines, in order |
| Config.LoadAfterCreate | src/config.rs:34-43 | for a node id and URL without `'\n'` or a final `'\r'`, and a trimmed token without `'\n'`, loading a created file returns the values it was created from, with the token trimmed, or the empty-field error when one is empty |
| Config.RewriteLinesIdempotent | src/config.rs:113-120 | rewriting the lines twice with the same token equals rewriting them once |
| Config.RewriteWithoutTokenLine | src/config.rs:112-127 | with no `AUTH_TOKEN=` line, no line is changed and none is added |
| Config.CreateThenRotate | src/config.rs:89-127 | for `n` and `u` without `'\n'` or a final `'\r'`, and a trimmed `t` without `'\n'`: after creating with `(n, u, t)` and rotating to a token `t2` without a line feed, the file reads as `NODE_ID=n`, `API_URL=u`, `AUTH_TOKEN=t2` |
| Config.LookupSurvivesRewrite | src/config.rs:113-120 | the rewrite does not change what `NODE_ID` or `API_URL` reads as |
| Config.TokenLookupAfterRewrite | src/config.rs:113-120 | after the rewrite, a file that assigned a token reads as the new token |
| Config.LoadAfterRotate | src/config.rs:105-130 | on a loadable file where no line but the last ends in `'\r'`, rotating to a token without `'\n'` or a final `'\r'` and loading again gives the same node id and URL and the new token; an empty new token makes the reload fail with the empty-field error |
| Config.RewriteContentIdempotent | src/config.rs:111-127 | on text whose lines, except the last, do not end in `'\r'` and whose last line is not blank, rotating twice to the same token (one without a line feed) gives the same text as rotating once |
| Config.RotateTwiceAfterCreate | src/config.rs:73-130 | for `n` and `u` without `'\n'` or a final `'\r'`, and a trimmed `t` without `'\n'`: a created and then rotated file is unchanged by a second rotation to the same token, when that token has no line feed |
| Config.RewriteDropsTrailingBlankLine | src/config.rs:113-127 | without that proviso the text rewrite is not idempotent: for a first line `L` that is not a token line, `L\n\n` becomes `L\n` and then `L` |

## Left out

- Platform reads are inputs: the `sysinfo` memory, CPU and disk queries, and the sysfs PCI directory walk. A failure of `read_dir` or of a directory entry is not modelled. Unreadable `class`, `vendor` and `device` files are modelled.
- The PCI database comes in as a map. The online fetch, the fallback to the offline copy and its `unwrap` are not modelled.
- The TOML parsing of the bundled VRAM table comes in as `Option<VendorVramMap>`, where `None` is a parse error. The table's contents are not modelled.
- `list_ethernet_connections` and its `unwrap` are not modelled. It is sysfs I/O whose result is only logged.
- The root-disk test compares the mount point as a string with `"/"`. Rust's `Path` equality is not modelled.
- The `dotenvy` loader is abstracted as first-line prefix lookup. Quoting, comments, `export` and the precedence of variables already in the process environment are not modelled.
- The home-directory lookup, `create_dir_all`, and the 0600 permission bits are not modelled.
- Failures of file opening and writing, and partially written files, are not modelled. Reading a file that does not exist is modelled, as `FileUnreadable`.
- Logging is not modelled.
- Hardware errors: each `HardwareError` tag names the step that failed, and the id errors carry the id text. The source returns the boxed `io::Error`, `ParseIntError` or TOML error instead. The id text and the vendor/device distinction appear only in its log lines.
- `src/auth.rs`, `src/heartbeat.rs`, `src/main.rs`, `src/software.rs` and `src/system.rs` are not part of this model. They are HTTP clients, CLI orchestration, process spawning and OS queries.
- Text.Trim: the contract states the ends of the result but not that exactly the surrounding whitespace is removed. That finer fact is in the contracts of `TrimStart` and `TrimEnd`, which `Trim` composes.
- Config.ConfigFile.LookupConfiguration: the dotenv parse failure at `src/config.rs:32` is not modelled; any text is read by first-line prefix lookup.
- Config.RewriteContentIdempotent: it holds only under its stated proviso. `RewriteDropsTrailingBlankLine` shows why a blank last line breaks it. A token holding `'\n'` breaks it too: rotating `AUTH_TOKEN=a` to `b\nc` gives `AUTH_TOKEN=b\nc`, which reads as two lines, and a second rotation gives `AUTH_TOKEN=b\nc\nc`.
