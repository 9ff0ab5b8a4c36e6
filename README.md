# Ubermag helper bookkeeping, modelled in Dafny

This project models four small pieces of bookkeeping logic from a collection of
Ubermag micromagnetic-simulation helpers, and proves what each promises.

- **Geometry** (`system_properties.dfy`, module `SystemGeometry`). Three classes:
  - `SystemProperties` checks a three-component cell pitch. It scales the box
    lengths in place and keeps the unscaled lengths as `numcells`.
  - `SubRegion` is a builder object. Each call updates its corners, cell size,
    unit labels and dims by fixed precedence rules, and may create a region.
  - `MyRegions` is a registry that creates sub-regions lazily on attribute
    access, and deletes them by name.
- **Palette store** (`colour_palettes.dfy`, module `ColourPalettes`):
  - named palettes, each an insertion-ordered dict of colours;
  - an "active" palette;
  - three argument shapes for adding a palette;
  - lookup by key or by 0-based position.
- **Checkpoint cleanup** (`dir_cleanup.dfy`, module `DirCleanup`):
  - the anchored checkpoint-file pattern;
  - the keep/delete partition by save spacing;
  - the prompt loop, confirmation and early exit;
  - the best-effort deletion sweep over an abstract directory;
  - the `drive-<N>` sort key.
- **Field metadata** (`field_info.dfy`, module `Metadata`): a frozen five-field
  record, seen as a read-only mapping with a fixed key order.

Two support modules: `Wrappers` (Option/Result) and `Decimal` (ASCII decimal
digits, `int()` of a digit string, `str()` of an integer).

Points of the code the model follows exactly:
- the cell pitch is accepted when it has three non-zero components, so a
  negative pitch is accepted;
- `numcells` is the unscaled lengths as given;
- `SubRegion.create` passes only the two corners to the region;
- the cleanup docstring names the prefix `dmi_with_anisotropy`, but the pattern
  actually compiled is `dmi_paper` (`DirCleanup.DocumentedPrefixDoesNotMatch`).

## Model

| member | source | states |
|---|---|---|
| SystemGeometry.CellAcceptedExactly | include/custom_system_properties.py:62 | the pitch is accepted iff it has exactly three components, none zero; the 1 nm default and a negative pitch are accepted |
| SystemGeometry.SystemProperties.constructor | include/custom_system_properties.py:50-67 | on an accepted pitch: `numcells` is the given lengths; each length is multiplied once by its own pitch component; `p2` is the scaled far corner; `p1` and `units` are stored untouched |
| SystemGeometry.NewSystemProperties | include/custom_system_properties.py:61-69 | construction succeeds iff the pitch is accepted, and raises ValueError otherwise; on success `p2` is each given length times its pitch, independent of `p1` |
| SystemGeometry.NewWithDefaults | include/custom_system_properties.py:50-67 | with the default pitch, origin and units, construction always succeeds |
| SystemGeometry.NumcellsIsQuotient | include/custom_system_properties.py:63-67 | in real arithmetic, the stored `numcells` (the unscaled lengths) equal each scaled length divided by its pitch; the constructor itself never divides |
| SystemGeometry.Initial | include/custom_system_properties.py:74-79 | a fresh sub-region holds the given corners, no region, and empty dims, cell size and unit labels |
| SystemGeometry.ScaleEach | include/custom_system_properties.py:104-105 | scaling by a cell size raises IndexError iff the corner or the cell size has fewer than three components; otherwise the result has three components |
| SystemGeometry.ScaleEachTruncates | include/custom_system_properties.py:104-105 | only the first three coordinates survive scaling by a cell size |
| SystemGeometry.ScaleEachAxis | include/custom_system_properties.py:104-105 | each scaled coordinate is the coordinate times the cell size on the same axis |
| SystemGeometry.Created | include/custom_system_properties.py:113-117 | `create()` changes nothing but the region; with both corners non-empty the region is built from them, otherwise the state is unchanged |
| SystemGeometry.Called | include/custom_system_properties.py:81-111 | a call raises nothing, TypeError or IndexError; TypeError exactly when a corner is missing and `units` is a scalar; a missing corner leaves both corners and the region as they were; the region is either kept or built from the new corners |
| SystemGeometry.CallWithoutCorners | include/custom_system_properties.py:83-96 | a call missing a corner never touches the corners or the region. It stores a given cell size, tuple labels and dims. A scalar `units` raises TypeError after the cell size is stored |
| SystemGeometry.CallWithCornersKeepsSettings | include/custom_system_properties.py:99-111 | a call with both corners never stores cell size, labels or dims |
| SystemGeometry.CellsizeTakesPrecedence | include/custom_system_properties.py:103-108 | with both corners, a cell size wins over a scalar `units`, and labels and dims have no effect |
| SystemGeometry.CallWithCorners | include/custom_system_properties.py:99-111 | with both corners the call raises only IndexError, exactly when a cell size meets a short corner or cell size. Otherwise the corners become the given ones, scaled by cell size, by scalar units, or not at all. The region is created iff `auto_create` holds and both corners are non-empty |
| SystemGeometry.ShortCellsizeStoresRawCorners | include/custom_system_properties.py:100-105 | a short cell size raises only after the raw corners have been stored |
| SystemGeometry.SubRegion.constructor | include/custom_system_properties.py:72-79 | the new object holds the given corners, no region and empty dims, cell size and labels |
| SystemGeometry.SubRegion.Create | include/custom_system_properties.py:113-117 | the object's new state is that of `create()` on its old state |
| SystemGeometry.SubRegion.Call | include/custom_system_properties.py:81-111 | the object's new state and the exception raised are those of the call rules above, applied to its old state |
| SystemGeometry.MyRegions.constructor | include/custom_system_properties.py:121-123 | a new registry has the given name and no sub-regions |
| SystemGeometry.MyRegions.GetAttr | include/custom_system_properties.py:125-132 | `subregion` yields the registry and the registry's name yields that name, both changing nothing. Any other name yields its sub-region; if absent, exactly one fresh, empty sub-region is inserted under it and no other entry changes |
| SystemGeometry.MyRegions.DeleteSubregion | include/custom_system_properties.py:134-138 | removes exactly the named entry if present; otherwise raises KeyError and changes nothing |
| SystemGeometry.LookupTwice | include/custom_system_properties.py:125-132 | two lookups of the same name return the same object |
| ColourPalettes.Keys | include/custom_helper_files/colour_palettes.py:146 | the key list has one key per entry, in insertion order |
| ColourPalettes.Put | include/custom_helper_files/colour_palettes.py:116-118 | assigning one key adds at most one entry |
| ColourPalettes.Get | include/custom_helper_files/colour_palettes.py:128 | `get` gives None iff the key is absent |
| ColourPalettes.PutKeys | include/custom_helper_files/colour_palettes.py:116-118 | assigning a new key appends it; assigning an existing key keeps the key order |
| ColourPalettes.PutGet | include/custom_helper_files/colour_palettes.py:116-118 | after assignment the key maps to the new value and every other key keeps its value |
| ColourPalettes.PutUnique | include/custom_helper_files/colour_palettes.py:116-118 | assignment keeps keys unique |
| ColourPalettes.GetAt | include/custom_helper_files/colour_palettes.py:146-148 | with unique keys, looking up the key at position i gives the value at position i |
| ColourPalettes.Lookup | include/custom_helper_files/colour_palettes.py:143-149 | a string gives its value or None; an int in range gives the value of the key at that position; anything else raises KeyError |
| ColourPalettes.IndexMatchesKey | include/custom_helper_files/colour_palettes.py:145-148 | lookup by position i and by the i-th key agree, and give the i-th value |
| ColourPalettes.LookupByIndex | include/custom_helper_files/colour_palettes.py:145-148 | with unique keys, looking up an in-range position gives the value stored at that position |
| ColourPalettes.Accessor.Item | include/custom_helper_files/colour_palettes.py:170-178 | `accessor[k]` for a string k gives the dict `get` of k; an in-range position i gives the value at position i (keys unique); any other selector raises KeyError |
| ColourPalettes.FromList | include/custom_helper_files/colour_palettes.py:111-118 | a list builds a palette with unique keys and no more entries than items, and then every group item has at least two parts; otherwise it raises IndexError naming a group item of fewer than two parts |
| ColourPalettes.BuildFromList | include/custom_helper_files/colour_palettes.py:112-118 | the loop over a list builds exactly that palette, or raises the same IndexError |
| ColourPalettes.ShortItemSticks | include/custom_helper_files/colour_palettes.py:113-116 | an IndexError from an item aborts the whole list with that error |
| ColourPalettes.FromDict | include/custom_helper_files/colour_palettes.py:120-122 | the palette built from a dict has unique keys and no more entries than the dict |
| ColourPalettes.Build | include/custom_helper_files/colour_palettes.py:109-124 | ValueError is raised exactly for an argument that is neither list nor dict; a dict always succeeds; a list succeeds or raises IndexError; any palette built has unique keys |
| ColourPalettes.PlainListKeys | include/custom_helper_files/colour_palettes.py:113-118 | a list of plain colours is stored as `str(1)`, `str(2)`, ... mapped to the colours, in order |
| ColourPalettes.PutNewKey | include/custom_helper_files/colour_palettes.py:116-118 | assigning an absent key appends exactly that entry |
| ColourPalettes.PlainListIndexMatchesKey | include/custom_helper_files/colour_palettes.py:52-57 | for a list of plain colours, position i and key `str(i + 1)` give the same colour, the i-th one |
| ColourPalettes.ListItemStored | include/custom_helper_files/colour_palettes.py:113-118 | one more list item: a plain colour goes under `str` of its 1-based position; a group of two or more parts stores its second part under `str` of its first; a shorter group raises IndexError at that position |
| ColourPalettes.RepeatedKeyKeepsFirstPosition | include/custom_helper_files/colour_palettes.py:113-118 | appending a group of two or more parts always succeeds; the key order is unchanged when its key is already present and gains the key at the end otherwise; the key then finds the group's second part and every other key keeps its value |
| ColourPalettes.DictKeepsOrder | include/custom_helper_files/colour_palettes.py:120-122 | a dict whose keys stay distinct under `str()` is stored entry for entry, in the same order |
| ColourPalettes.DefaultsShape | include/custom_helper_files/colour_palettes.py:68-106 | the store starts with exactly `dutch_field`, `spring_pastels` and `river_nights`, each with nine distinct keys |
| ColourPalettes.ColorPalette.constructor | include/custom_helper_files/colour_palettes.py:66-107 | a new store holds the three default palettes and no active palette |
| ColourPalettes.ColorPalette.AddPalette | include/custom_helper_files/colour_palettes.py:109-124 | on success only the named palette is replaced; on error nothing changes; the active palette never changes |
| ColourPalettes.ColorPalette.GetPalette | include/custom_helper_files/colour_palettes.py:126-128 | gives the stored palette iff the name is present, otherwise None |
| ColourPalettes.ColorPalette.LoadPalette | include/custom_helper_files/colour_palettes.py:130-136 | the palette becomes active iff it exists and is non-empty; otherwise ValueError with the active palette unchanged; the store never changes |
| ColourPalettes.ColorPalette.Use | include/custom_helper_files/colour_palettes.py:138-149 | raises ValueError when no non-empty palette is active; otherwise it is the lookup on the active palette |
| ColourPalettes.ColorPalette.At | include/custom_helper_files/colour_palettes.py:151-157 | gives an accessor on the named palette iff it exists and is non-empty, and KeyError otherwise |
| ColourPalettes.ColorPalette.Attribute | include/custom_helper_files/colour_palettes.py:159-163 | gives an accessor iff the name is present, even for an empty palette, and AttributeError otherwise |
| ColourPalettes.LoadThenUse | include/custom_helper_files/colour_palettes.py:130-157 | after a successful load, `use` answers every lookup as `store[name]` does; a failed load means `store[name]` fails too |
| Decimal.NatToString | include/custom_helper_files/colour_palettes.py:118 | `str()` of a natural number is a non-empty digit string without a leading zero |
| Decimal.IntToString | include/custom_helper_files/colour_palettes.py:118 | `str()` of an integer starts with a minus sign iff the integer is negative |
| Decimal.ValueOfNatToString | include/ubermag_dir_cleanup.py:69 | `int()` undoes `str()` on natural numbers |
| Decimal.NatToStringInjective | include/custom_helper_files/colour_palettes.py:118 | distinct natural numbers have distinct `str()` renderings |
| Decimal.IntToStringInjective | include/custom_helper_files/colour_palettes.py:118 | distinct positions give distinct generated keys |
| DirCleanup.Anchored | include/ubermag_dir_cleanup.py:60-62 | the text the anchors require is the whole name, or the name without one trailing newline |
| DirCleanup.MatchSound | include/ubermag_dir_cleanup.py:60-69 | a matched name is the prefix, 9 digits, `-`, 7 digits and `.omf`, optionally followed by one newline; its sequence number is the value of the 9 digits |
| DirCleanup.MatchComplete | include/ubermag_dir_cleanup.py:60-69 | every name of that form matches, with the value of its 9 digits |
| DirCleanup.MatchSeq | include/ubermag_dir_cleanup.py:60-69 | a matched name is at least as long as the fixed-width pattern |
| DirCleanup.DocumentedPrefixDoesNotMatch | include/ubermag_dir_cleanup.py:50-62 | a name with the docstring's prefix does not match |
| DirCleanup.Retain | include/ubermag_dir_cleanup.py:70 | the keep test raises exactly for a non-zero sequence with spacing 0 |
| DirCleanup.RetainEvery500 | include/ubermag_dir_cleanup.py:70 | of sequences 0 to 999, spacing 500 keeps exactly 0, 499 and 999 |
| DirCleanup.Classify | include/ubermag_dir_cleanup.py:66-73 | an unmatched name is skipped; a matched name raises exactly when its sequence number is non-zero and the spacing is 0 (Python's ZeroDivisionError carries no file name; the model records which file raised); otherwise it is kept iff the keep test holds |
| DirCleanup.Pick | include/ubermag_dir_cleanup.py:63-73 | a name is chosen iff it is listed, its classification does not raise and its fate is one of the chosen ones |
| DirCleanup.PickAppend | include/ubermag_dir_cleanup.py:66-73 | choosing from a concatenated listing concatenates the choices |
| DirCleanup.PickCount | include/ubermag_dir_cleanup.py:75 | choices by disjoint fates add up in length |
| DirCleanup.SplitOf | include/ubermag_dir_cleanup.py:63-73 | the two lists together are no longer than the listing; an error names a listed file |
| DirCleanup.SplitOfFails | include/ubermag_dir_cleanup.py:66-73 | the partition raises iff some listed name's keep test raises |
| DirCleanup.SplitOfErrorSticks | include/ubermag_dir_cleanup.py:66-73 | the first error ends the scan |
| DirCleanup.SplitOfLists | include/ubermag_dir_cleanup.py:63-73 | the keep list is exactly the kept names and the delete list exactly the deleted names, in listing order |
| DirCleanup.SplitIsPartition | include/ubermag_dir_cleanup.py:63-75 | the two lists are disjoint; a listed name is in one of them iff it matches the pattern; their lengths add up to the number of matched names |
| DirCleanup.Partition | include/ubermag_dir_cleanup.py:63-75 | the scanning loop computes exactly that partition, or raises the same error |
| DirCleanup.StripLeftDropsLeadingSpace | include/ubermag_dir_cleanup.py:43 | the left strip is a suffix that does not start with whitespace, and all it drops is whitespace |
| DirCleanup.StripRightDropsTrailingSpace | include/ubermag_dir_cleanup.py:43 | the right strip is a prefix that does not end with whitespace, and all it drops is whitespace |
| DirCleanup.Lower | include/ubermag_dir_cleanup.py:43 | lower-casing keeps the length |
| DirCleanup.LowerChar | include/ubermag_dir_cleanup.py:43 | an ASCII capital becomes the lower-case letter at the same alphabet position; every other character is unchanged |
| DirCleanup.LowerEachChar | include/ubermag_dir_cleanup.py:43 | lower-casing a string lower-cases each character in place |
| DirCleanup.Normalize | include/ubermag_dir_cleanup.py:43 | the normalised reply is no longer than the raw one |
| DirCleanup.TrimBounds | include/ubermag_dir_cleanup.py:43 | `strip()` keeps one contiguous slice whose ends are not whitespace, and everything outside it is whitespace |
| DirCleanup.NormalizeTrims | include/ubermag_dir_cleanup.py:43 | the normalised reply is the lower-cased slice left by stripping leading and trailing whitespace |
| DirCleanup.FirstValidFrom | include/ubermag_dir_cleanup.py:42-46 | the answer is the first reply from the given position whose normalised form is an option, and every earlier reply was rejected; with no answer, every reply was rejected |
| DirCleanup.GetValidInput | include/ubermag_dir_cleanup.py:37-46 | the prompt loop returns only a member of the options, after using exactly the replies up to the first valid one; when replies run out it consumes them all and returns nothing |
| DirCleanup.Confirmation | include/ubermag_dir_cleanup.py:87-94 | a completed confirmation uses at least two replies, its last used reply is a valid yes/no answer, and it confirms iff that answer is `yes` |
| DirCleanup.ConfirmationSecondAnswer | include/ubermag_dir_cleanup.py:87-94 | the deciding reply is the second accepted one: exactly one earlier reply (the answer to "print the list?") was accepted |
| DirCleanup.ConfirmationNone | include/ubermag_dir_cleanup.py:87-94 | when no confirmation completes, the replies never hold two valid yes/no answers |
| DirCleanup.Directory.constructor | include/ubermag_dir_cleanup.py:66 | a directory starts with its files and no removal attempts |
| DirCleanup.Directory.Remove | include/ubermag_dir_cleanup.py:99-102 | one attempt is recorded; it succeeds iff the file is present and removable, and only then is the file gone |
| DirCleanup.Sweep | include/ubermag_dir_cleanup.py:97-103 | only attempted names are reported as failed |
| DirCleanup.SweepRemoves | include/ubermag_dir_cleanup.py:97-103 | after the sweep exactly the removable attempted names are gone |
| DirCleanup.SweepFailures | include/ubermag_dir_cleanup.py:97-103 | a name is reported failed iff it was attempted and was either unremovable or absent |
| DirCleanup.AskToDelete | include/ubermag_dir_cleanup.py:87-94 | asks both questions and confirms exactly as `Confirmation` describes |
| DirCleanup.DeleteAll | include/ubermag_dir_cleanup.py:97-103 | every marked name is attempted once, in order, and a failure does not stop the rest |
| DirCleanup.ProcessDriveDir | include/ubermag_dir_cleanup.py:49-103 | a raising keep test aborts; an empty delete list returns before any prompt or removal; batch mode asks nothing; otherwise only `yes` to the second question deletes. Deletion attempts exactly the delete list, in order; no kept file is ever removed; nothing changes unless deletion runs |
| DirCleanup.Basename | include/ubermag_dir_cleanup.py:110 | the basename is the text after the last `/` |
| DirCleanup.LeadingDigits | include/ubermag_dir_cleanup.py:111 | the longest run of digits at the start of the text |
| DirCleanup.DriveNumber | include/ubermag_dir_cleanup.py:111-114 | a non-zero key needs `drive-` followed by a digit |
| DirCleanup.NaturalSortKeyOfDrive | include/ubermag_dir_cleanup.py:106-114 | for `<dir>/drive-<digits><rest>`, the key is the value of the digits |
| DirCleanup.NaturalSortKey | include/ubermag_dir_cleanup.py:106-114 | the key is 0 unless the basename is `drive-` followed by a digit; then it is the value of the leading digit run after `drive-`, which is non-empty |
| DirCleanup.DriveNumberOf | include/ubermag_dir_cleanup.py:111-113 | `drive-` followed by digits gives the value of those digits |
| DirCleanup.BasenameOfJoin | include/ubermag_dir_cleanup.py:110 | the basename of a directory joined with a slash-free name is that name |
| DirCleanup.LeadingDigitsOfRun | include/ubermag_dir_cleanup.py:111 | the digit run stops at the first non-digit |
| DirCleanup.NaturalSortKeyOtherwise | include/ubermag_dir_cleanup.py:110-114 | for `<dir>/<name>` where the name is not `drive-` followed by a digit, the key is 0 |
| Metadata.WithLabel | include/Uberwidgets/metadata/field_info.py:25-31 | built with only a label, the record has empty symbol, options, units and group |
| Metadata.InstanceDict | include/Uberwidgets/metadata/field_info.py:25-35 | the instance dictionary has five entries |
| Metadata.Find | include/Uberwidgets/metadata/field_info.py:35 | a key is found iff some entry carries it |
| Metadata.FindFirst | include/Uberwidgets/metadata/field_info.py:35-36 | lookup gives the value of the first entry with the key |
| Metadata.Get | include/Uberwidgets/metadata/field_info.py:33-37 | `info[k]` succeeds iff k is one of the five field names, and raises KeyError(k) otherwise |
| Metadata.GetReturnsField | include/Uberwidgets/metadata/field_info.py:33-36 | each of the five names gives its own field |
| Metadata.Contains | include/Uberwidgets/metadata/field_info.py:33-37 | membership holds for exactly the five names |
| Metadata.Iter | include/Uberwidgets/metadata/field_info.py:39-41 | iteration yields `label, symbol, options, units, group` in that order: exactly the members |
| Metadata.Len | include/Uberwidgets/metadata/field_info.py:43-44 | the length is 5, the number of keys iterated |
| Metadata.ReprView | include/Uberwidgets/metadata/field_info.py:46-48 | the printed dict pairs each iterated key, in order, with `info[key]` |
| Metadata.ViewDeterminesRecord | include/Uberwidgets/metadata/field_info.py:33-48 | two records that agree on every key are equal |
| Metadata.ReprOfLabelOnly | include/Uberwidgets/metadata/field_info.py:27-31 | the printed dict of a label-only record shows the label and the four defaults |

## Left out

- Logging setup, `print` messages, the interactive `main()` of the cleanup
  script, and the file system itself. The directory is an abstract set of
  names with a fixed set of files whose removal fails. The listing and the
  replies to prompts are parameters. Running out of replies stands for the
  end-of-input error of `input()`.
- The region class of the external field library is not part of this model. A
  region is recorded as the two corners it is built from. Whatever that
  library would reject or raise is not modelled.
- Floating point: lengths, pitches and coordinates are `real`, so IEEE
  rounding of the scaling is not captured.
- SystemGeometry.NumcellsIsQuotient: holds over the reals only; with IEEE
  floats `(n * c) / c` need not equal `n`. The stored `numcells` is the
  unscaled input either way.
- SystemGeometry.SubRegion.Call: only tuples of labels and scalar factors are
  modelled as `units`. A one-element list or string as a scalar replacement
  (Python sequence repetition) is not modelled.
- SystemGeometry.SubRegion.Call: the corners of a sub-region are always
  sequences, so the "Invalid args" branch taken for a `None` stored corner
  cannot arise here.
- SystemGeometry.SubRegion.Create: the "Invalid args" message for an empty
  corner is output only; the model leaves the state unchanged.
- ColourPalettes: values and keys are strings or integers. `str()` of other
  Python objects (floats, booleans, nested lists) is not modelled. Nor is the
  fact that `bool` counts as `int` in a lookup.
- ColourPalettes: palettes are values. Aliasing between a stored palette, the
  active palette and an accessor (mutating one dict through another name) is
  not captured.
- SystemGeometry.MyRegions.GetAttr: Python calls `__getattr__` only when
  normal attribute lookup fails, so `name`, `_subregions` and
  `delete_subregion` never reach it. The model sends every name through the
  method body: on a registry not itself called `name`, `GetAttr("name")`
  inserts a sub-region where Python returns the registry's name, and
  `GetAttr("_subregions")` inserts one where Python returns the dict.
- ColourPalettes.ColorPalette.Attribute: Python calls `__getattr__` only for
  names that are not real attributes. The shadowing by `palettes`,
  `active_palette` and the methods is not modelled.
- Accessor `__repr__` text is not modelled.
- DirCleanup.Basename: paths are modelled as POSIX paths, split only at `/`.
  On Windows the basename also splits at `\` and after a drive colon, so
  `C:\runs\drive-3` has key 3 there and key 0 in the model.
- DirCleanup: `\d` and `str.lower()` are modelled on ASCII only. Other Unicode
  decimal digits in a file name or drive name, and non-ASCII lower-casing of
  replies, are not captured.
- Metadata: `units` is an unordered map, so the key order of the units dict
  is not captured. The record is an immutable value, which is stronger than a
  frozen dataclass: freezing only forbids reassigning a field, so
  `info.options.append(x)` or `info.units[k] = v` changes the record in place
  (and what `info["options"]` and `repr(info)` show). That in-place mutation
  of the list and dict fields is not modelled. The printed text of the record is modelled as the key/value view
  it prints, not as characters.
- Metadata.Find: the instance dictionary is modelled as the five declared
  fields, in declaration order.
