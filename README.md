# Solaris computer system descriptor, modelled in Dafny

OSHI reads hardware identity on Solaris by scraping the text that the `smbios` command prints.
`SolarisComputerSystem.init` walks those lines with three section flags (BIOS, SYSTEM,
BASEBOARD). A line naming an SMBIOS structure type switches the flags. Any other structure
type ends the walk. Inside a section, an ordered chain of labels (`Vendor:`, `Product:`,
`Serial Number:`, ...) picks the one accumulator that a line overwrites. The new value is
`line.split(label)[1].trim()`. After the walk, non-empty values are copied into the firmware
record and the system fields. The BIOS date is rewritten from `MM/DD/YYYY` to `YYYY-MM-DD`. The four
baseboard strings build the baseboard. When no system serial number was found,
`getSystemSerialNumber` asks `sneep`, then the first `prtconf -pv` line with the `chassis-sn:`
property, then falls back to `SystemInfo.UNKNOWN`.

The project has three modules:

- `JavaLang` (JavaLang.dfy): the Java string operations the scanner relies on, stated from
  their Java semantics. These are `indexOf`/`contains`, `trim` (strips code units up to U+0020),
  `split` with limit 0 (pieces around the leftmost non-overlapping matches, trailing empty
  pieces dropped), `substring` and array indexing, which throw where Java throws.
- `Smbios` (Smbios.dfy): the scan. `StepLine` and `Scan` are the specification of one
  iteration and of the whole loop. `ScanSmbios` is the loop itself, with its flags and its
  `break`, proved equal to `Scan` from the start state. `BiosLabels`, `SystemLabels` and
  `BaseboardLabels` are the three branches of the loop body, each proved equal to the section's
  label chain `ApplyLabels`.
- `Solaris` (Solaris.dfy): the release date rewrite, the serial number chain (the function
  `SystemSerialNumber` and the loop `GetSystemSerialNumber`), `Populate` (the object state
  that `init` leaves) and the class `SolarisComputerSystem`, whose `Init` method changes the
  object's fields.

Behaviour of `init` that is easy to miss:

- The scan can fail. A line whose label is followed only by further copies of the label
  throws `ArrayIndexOutOfBoundsException` from `split(label)[1]`, for example a line that
  ends right after `Vendor:`. The exception escapes `init` before any field is set.
  `Init` returns `Threw(ArrayIndexOutOfBounds)` and leaves the object unchanged.
- The value is the text between the first occurrence of the label and the next one (or the
  end of the line), trimmed. A second copy of the label on the same line cuts the value short.
- Any structure type other than the three ends the scan, even one that comes before the
  BIOS section.
- The date rewrite checks only the length (at least 10 characters). It does not check for
  digits or slashes. A shorter date is stored as it is. An empty date leaves the firmware's
  release date untouched.
- Only the serial number falls back to the unknown placeholder. The other fields keep the
  defaults of the objects they belong to, and the baseboard receives the raw strings, empty
  or not.
- The BIOS version label is `VersionString:` with no space, as the code writes it. The sample
  output quoted in the source's own comment (SolarisComputerSystem.java:52) prints
  `Version String:`. A line in that form contains none of the BIOS labels, so under the code
  as written it leaves the BIOS version empty.

## Model

| member | source | states |
|---|---|---|
| `Smbios.ScanSmbios` | oshi-core/src/main/java/oshi/hardware/platform/unix/solaris/SolarisComputerSystem.java:105-156 | The loop over the smbios lines, with its three flags and its break, returns exactly what the specification `Scan` gives from the start state (all flags off, all accumulators empty). That at most one flag is set after every line is the loop's invariant, which `StepLineMeaning` states for one line. |
| `Smbios.StepLineMeaning` | oshi-core/src/main/java/oshi/hardware/platform/unix/solaris/SolarisComputerSystem.java:111-155 | One line stops the scan exactly when it contains `SMB_TYPE_` but none of the three names. A line with `SMB_TYPE_` sets the flag of the first name it contains, tried in the order BIOS, SYSTEM, BASEBOARD, and clears the other two. Any other line leaves the flags alone. At most one flag stays set. Only accumulators of the section active after the line can change. The only failure is `ArrayIndexOutOfBounds`. |
| `Smbios.StepLine` | oshi-core/src/main/java/oshi/hardware/platform/unix/solaris/SolarisComputerSystem.java:111-155 | The only failure of one iteration is the `ArrayIndexOutOfBounds` from `split(label)[1]`. |
| `Smbios.SectionTest` | oshi-core/src/main/java/oshi/hardware/platform/unix/solaris/SolarisComputerSystem.java:111-127 | The section test says stop exactly at a stop line. A line with `SMB_TYPE_` sets the flag of the first of BIOS, SYSTEM and BASEBOARD it names and clears the others. Any other line keeps the flags. |
| `Smbios.SectionLabels` | oshi-core/src/main/java/oshi/hardware/platform/unix/solaris/SolarisComputerSystem.java:129-155 | The label tests of the loop body apply the chain of the section that is active after the section test. |
| `Smbios.SwitchSection` | oshi-core/src/main/java/oshi/hardware/platform/unix/solaris/SolarisComputerSystem.java:111-127 | The section test of a line that does not stop the scan keeps the accumulators. A line without `SMB_TYPE_` keeps the flags. A line with it sets exactly the flag of the first of BIOS, SYSTEM and BASEBOARD it names. At most one flag stays set. |
| `Smbios.TypeNameLines` | oshi-core/src/main/java/oshi/hardware/platform/unix/solaris/SolarisComputerSystem.java:111-127 | A line naming SMB_TYPE_BIOS, SMB_TYPE_SYSTEM or SMB_TYPE_BASEBOARD always contains `SMB_TYPE_` and is never a stop line (`IsStopLine`), so the outer test never misses one of the three sections. |
| `Smbios.ActiveSection` | oshi-core/src/main/java/oshi/hardware/platform/unix/solaris/SolarisComputerSystem.java:129-145 | No section is active exactly when no flag is set. With at most one flag set, the active section is the one whose flag is set. |
| `Smbios.Labels` | oshi-core/src/main/java/oshi/hardware/platform/unix/solaris/SolarisComputerSystem.java:84-100 | Every label of a section's chain has a non-empty marker and names an accumulator of that section. |
| `Smbios.LabelsOneEach` | oshi-core/src/main/java/oshi/hardware/platform/unix/solaris/SolarisComputerSystem.java:130-154 | In each section's chain, every accumulator of the section has exactly one label: no two labels write the same accumulator, and none is missing. |
| `Smbios.Scan` | oshi-core/src/main/java/oshi/hardware/platform/unix/solaris/SolarisComputerSystem.java:109-156 | The only exception that can escape the scan is `ArrayIndexOutOfBounds` from `split(label)[1]`. |
| `Smbios.ScanStopsAtUnknownSection` | oshi-core/src/main/java/oshi/hardware/platform/unix/solaris/SolarisComputerSystem.java:111-127 | For any state and any lines before it, a line naming an unread structure type ends the scan. The outcome with that line and anything after it equals the outcome of the lines before it alone. |
| `Smbios.ScanOutsideSections` | oshi-core/src/main/java/oshi/hardware/platform/unix/solaris/SolarisComputerSystem.java:129-155 | Lines read while no section flag is set, up to the next structure type line, change no accumulator and throw nothing. |
| `Smbios.ScanWithinSection` | oshi-core/src/main/java/oshi/hardware/platform/unix/solaris/SolarisComputerSystem.java:129-155 | In one section, the scan throws exactly when some line's chosen label is followed only by copies of itself. Otherwise each accumulator ends with the trimmed text after its label in the last line that selects it (last one wins), or keeps its value when no line selects it. |
| `Smbios.ScanWithinSectionOkClean` | oshi-core/src/main/java/oshi/hardware/platform/unix/solaris/SolarisComputerSystem.java:129-155 | A scan inside one section that completes met only lines that extract cleanly. |
| `Smbios.ScanWithinSectionCleanOk` | oshi-core/src/main/java/oshi/hardware/platform/unix/solaris/SolarisComputerSystem.java:129-155 | A scan inside one section over lines that all extract cleanly completes. |
| `Smbios.ScanWithinSectionValues` | oshi-core/src/main/java/oshi/hardware/platform/unix/solaris/SolarisComputerSystem.java:129-155 | A scan inside one section that completes leaves each accumulator with its last-one-wins value. |
| `Smbios.LastValueCons` | oshi-core/src/main/java/oshi/hardware/platform/unix/solaris/SolarisComputerSystem.java:129-155 | The last-one-wins value of a line followed by more lines equals the value of the later lines, starting from what the first line leaves. |
| `Smbios.ApplyLabels` | oshi-core/src/main/java/oshi/hardware/platform/unix/solaris/SolarisComputerSystem.java:129-155 | Applying a section's label chain to a line changes only accumulators of that section. BIOS lines write only vendor, biosVersion and biosDate. SYSTEM lines write only manufacturer, product and serialNumber. BASEBOARD lines write only the four board fields. |
| `Smbios.ApplyLabelsThrows` | oshi-core/src/main/java/oshi/hardware/platform/unix/solaris/SolarisComputerSystem.java:130-154 | A line throws in a section exactly when the label it selects is followed only by copies of that label. |
| `Smbios.ApplyLabelsWrites` | oshi-core/src/main/java/oshi/hardware/platform/unix/solaris/SolarisComputerSystem.java:130-154 | A line that does not throw writes the trimmed text between its selected label and the label's next occurrence to that label's accumulator. It leaves every other accumulator alone. |
| `Smbios.ApplyLabelsValues` | oshi-core/src/main/java/oshi/hardware/platform/unix/solaris/SolarisComputerSystem.java:130-154 | For one line that does not throw, every accumulator ends as the last-one-wins value of that single line. |
| `Smbios.ApplyLabelsAt` | oshi-core/src/main/java/oshi/hardware/platform/unix/solaris/SolarisComputerSystem.java:130-154 | When label k's marker is the first of the chain that occurs in the line, the chain writes label k's accumulator, or throws what the extraction throws. |
| `Smbios.SplitValue` | oshi-core/src/main/java/oshi/hardware/platform/unix/solaris/SolarisComputerSystem.java:131 | `checkLine.split(marker)[1].trim()` succeeds exactly when the text after the marker's first occurrence is not the marker repeated. It then yields the trimmed text between the first occurrence and the next one (or the end of the line). |
| `Smbios.FirstLabelFrom` | oshi-core/src/main/java/oshi/hardware/platform/unix/solaris/SolarisComputerSystem.java:130-154 | The chosen label is the first in the chain whose marker the line contains. No earlier label's marker occurs in the line. None is chosen when no marker occurs. |
| `Smbios.Selected` | oshi-core/src/main/java/oshi/hardware/platform/unix/solaris/SolarisComputerSystem.java:130-154 | A chosen label's marker occurs in the line, the marker is not empty, and the label names an accumulator of that section. |
| `Smbios.SelectedIsFirst` | oshi-core/src/main/java/oshi/hardware/platform/unix/solaris/SolarisComputerSystem.java:130-136 | If label k's marker occurs and no earlier marker does, the else-if chain picks label k. |
| `Smbios.ExtractMeaning` | oshi-core/src/main/java/oshi/hardware/platform/unix/solaris/SolarisComputerSystem.java:131 | `line.split(label)[1].trim()` succeeds exactly when more than copies of the label follow its first occurrence. Its value is then the trimmed text up to the next occurrence or the end of the line. |
| `Smbios.Extract` | oshi-core/src/main/java/oshi/hardware/platform/unix/solaris/SolarisComputerSystem.java:131 | The only exception `line.split(label)[1].trim()` can throw is `ArrayIndexOutOfBounds`. |
| `Smbios.ExtractClean` | oshi-core/src/main/java/oshi/hardware/platform/unix/solaris/SolarisComputerSystem.java:131 | An extracted value has no blank ends (trimming it again changes nothing) and never contains the label it was extracted after. |
| `Smbios.BiosLabels` | oshi-core/src/main/java/oshi/hardware/platform/unix/solaris/SolarisComputerSystem.java:129-136 | The BIOS branch (Vendor:, then VersionString:, then Release Date:) equals the BIOS label chain of the specification, including the throwing case. |
| `Smbios.SystemLabels` | oshi-core/src/main/java/oshi/hardware/platform/unix/solaris/SolarisComputerSystem.java:137-144 | The SYSTEM branch (Manufacturer:, then Product:, then Serial Number:) equals the SYSTEM label chain of the specification. |
| `Smbios.BaseboardLabels` | oshi-core/src/main/java/oshi/hardware/platform/unix/solaris/SolarisComputerSystem.java:145-154 | The BASEBOARD branch (Manufacturer:, Product:, Version:, then Serial Number:) equals the BASEBOARD label chain of the specification. |
| `JavaLang.SplitSecond` | oshi-core/src/main/java/oshi/hardware/platform/unix/solaris/SolarisComputerSystem.java:131 | For a line that contains the marker, `split(marker)[1]` exists exactly when the text after the first occurrence is not the marker repeated zero or more times. It is then the text between the first and the second occurrence, or up to the end. |
| `JavaLang.SplitSecondThrowsAtEnd` | oshi-core/src/main/java/oshi/hardware/platform/unix/solaris/SolarisComputerSystem.java:131 | A marker with nothing after its first occurrence makes `split(marker)[1]` throw `ArrayIndexOutOfBounds`. |
| `JavaLang.PiecesAllEmpty` | oshi-core/src/main/java/oshi/hardware/platform/unix/solaris/SolarisComputerSystem.java:131 | The split pieces of a text are all empty exactly when the text is the marker repeated. |
| `JavaLang.Pieces` | oshi-core/src/main/java/oshi/hardware/platform/unix/solaris/SolarisComputerSystem.java:131 | The split pieces joined back with the marker give the original text, and no piece contains the marker. |
| `JavaLang.Split` | oshi-core/src/main/java/oshi/hardware/platform/unix/solaris/SolarisComputerSystem.java:131 | `split(marker)` with limit 0 returns the text itself when the marker does not occur. Otherwise it returns a prefix of the pieces, cut after the last non-empty one, with only empty pieces dropped. No element contains the marker. |
| `JavaLang.DropTrailingEmpty` | oshi-core/src/main/java/oshi/hardware/platform/unix/solaris/SolarisComputerSystem.java:131 | Split with limit 0 keeps a prefix of the pieces that ends in a non-empty piece. Every dropped piece is empty. |
| `JavaLang.Trim` | oshi-core/src/main/java/oshi/hardware/platform/unix/solaris/SolarisComputerSystem.java:131 | `trim` returns a contiguous slice of the input. Everything cut off is a code unit up to U+0020. A non-empty result starts and ends with a kept character. The result is empty exactly when every character is trimmable. |
| `JavaLang.TrimIdempotent` | oshi-core/src/main/java/oshi/hardware/platform/unix/solaris/SolarisComputerSystem.java:131 | A trimmed value is unchanged by trimming it again (used by `ExtractClean`). |
| `JavaLang.IndexOf` | oshi-core/src/main/java/oshi/hardware/platform/unix/solaris/SolarisComputerSystem.java:111-123 | `indexOf`, which `contains` tests, finds an occurrence with no earlier occurrence before it, or reports that there is none. |
| `JavaLang.IndexOfFrom` | oshi-core/src/main/java/oshi/hardware/platform/unix/solaris/SolarisComputerSystem.java:111-123 | The search from a position finds the least occurrence at or after that position, or reports that there is none. |
| `Solaris.ReleaseDate` | oshi-core/src/main/java/oshi/hardware/platform/unix/solaris/SolarisComputerSystem.java:164-172 | If the scanned date d has at least 10 characters, the release date is `d[6..10] + "-" + d[0..2] + "-" + d[3..5]`. If it is shorter, the release date is d unchanged, the value the catch block stores. |
| `Solaris.ReleaseDateReorders` | oshi-core/src/main/java/oshi/hardware/platform/unix/solaris/SolarisComputerSystem.java:166-168 | A date written as month, separator, day, separator, four-digit year (plus any tail) becomes year-month-day, and the tail is dropped. |
| `Solaris.ReleaseDateShape` | oshi-core/src/main/java/oshi/hardware/platform/unix/solaris/SolarisComputerSystem.java:166-168 | A rewritten date has exactly ten characters, with dashes at positions 4 and 7. |
| `Solaris.FirstContaining` | oshi-core/src/main/java/oshi/hardware/platform/unix/solaris/SolarisComputerSystem.java:200-205 | The chosen `prtconf` line is the first one containing the marker (first match wins), or there is none. |
| `Solaris.SystemSerialNumber` | oshi-core/src/main/java/oshi/hardware/platform/unix/solaris/SolarisComputerSystem.java:194-211 | The serial is never empty. A non-empty `sneep` answer is used. Otherwise the quoted value of the first `chassis-sn:` line is used when it is non-empty, even if a later line would give another value. Otherwise the serial is the unknown placeholder, also when no line carries the property. |
| `Solaris.GetSystemSerialNumber` | oshi-core/src/main/java/oshi/hardware/platform/unix/solaris/SolarisComputerSystem.java:194-211 | The method, with its search loop and `break`, returns exactly `SystemSerialNumber`. |
| `Solaris.Populate` | oshi-core/src/main/java/oshi/hardware/platform/unix/solaris/SolarisComputerSystem.java:158-188 | An empty vendor, BIOS version, manufacturer or product leaves the firmware or system default. A non-empty one is copied unchanged. A non-empty date is rewritten by `ReleaseDate`, and an empty one leaves the release date untouched. A non-empty scanned serial is kept, and an empty one is replaced by `SystemSerialNumber`, so the serial is never empty. The baseboard receives exactly the four scanned board strings. |
| `Solaris.SolarisComputerSystem.Init` | oshi-core/src/main/java/oshi/hardware/platform/unix/solaris/SolarisComputerSystem.java:45-192 | If the scan throws, init completes with `ArrayIndexOutOfBounds` and no field changes. Otherwise it completes normally and the object's fields become `Populate` of the old fields, the new firmware and the scanned values. |
| `Solaris.SolarisComputerSystem.constructor` | oshi-core/src/main/java/oshi/hardware/platform/unix/solaris/SolarisComputerSystem.java:41-43 | The object starts from the fields its superclass gives it. `init` is the separate `Init` call. |

## Left out

- Running commands: `ExecutingCommand.runNative("smbios")`, `runNative("prtconf -pv")` and
  `getFirstAnswer("sneep")` are not modelled. Their output is passed in as `seq<string>`
  (the lines) and `string` (sneep's first line, empty when it printed nothing or is missing).
  The model therefore does not capture that `prtconf` and `sneep` run only when the serial
  number is missing.
- `ParseUtil.getSingleQuoteStringValue` is not part of this model. It is the parameter
  `quote`, an arbitrary function from a line to a string.
- `SystemInfo.UNKNOWN` is the constant `Unknown` with the value "unknown". The proofs use
  only the fact that it is not empty.
- `SolarisFirmware`, `SolarisBaseboard`, `AbstractComputerSystem` and `BaseboardInitializer`
  are not part of this model. Their initial values are parameters (`newFirmware`, the
  constructor's `initial`). Their setters are plain field assignments. The baseboard is
  recorded as the four initializer strings, without the defaulting `SolarisBaseboard` may do.
- The Java constructor calls `init()` itself, so an exception from the scan escapes the
  constructor. Here the constructor only installs the superclass state, and `Init` reports
  the exception as its result.
- Strings are sequences of Unicode scalar values (Dafny's `char`), while Java strings are
  sequences of UTF-16 code units. Lengths and offsets (`trim`, `substring`, the date rewrite)
  agree with Java only on text inside the Basic Multilingual Plane; a character outside it is
  one element here and two in Java, and lone surrogates cannot be represented.
- `split` is modelled for markers without regular-expression metacharacters, the only kind
  the code passes. General regular expressions are not modelled.
- `serialVersionUID`, serialization and the rest of the construction plumbing are left out.
  They have no behaviour to model.
