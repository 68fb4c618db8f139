# Logging-configuration parser (dlplog `parse_json`)

This project models `parse_json` from `parsejson.h`. The routine takes a parsed JSON document and extracts logging configuration into two tables inside a `LogConfig`:

- the option-name table gets one `LogOption` entry for each string element of the top-level `log_option` array;
- the option-detail table gets one `OptionDetail` record for each object element of the top-level `option_details` array.

A record field is copied from the object's member of the same name only when that member exists and has the expected type. Eight fields are strings and `log_rotation_size` is a number.

The model has three files:

- `json.dfy`, module `Json`: the parsed tree (`Json`), an `Option` type, and member lookup by name (`FindMember`, `GetObjectItem`). Lookup is proved to return the first member with the requested key.
- `parsejson.dfy`, module `ParseJson`:
  - the records `LogOption` and `OptionDetail`;
  - the exit status `Outcome`;
  - specification functions for what each pass appends (`OptionEntries`, `ObjectDetails`, `DetailOf`) and for the whole call (`Parse`);
  - the class `LogConfig`, whose two `seq` fields stand for the two uthash tables;
  - the method `LogConfig.ParseJson`, which runs the source's two indexed loops and appends to the tables in place;
  - `ReadDetail`, which fills a record member by member;
  - lemmas about the passes.
- `scenarios.dfy`, module `Scenarios`: concrete documents and the result `Parse` gives for each. One of them runs through the class.

The tables are insertion-ordered sequences. The JSON text and `cJSON_Parse` are not modelled: the method takes the parse result as an `Option<Json>`, which is `None` when parsing failed. The C routine returns `void` and prints a diagnostic on each failing exit. The model returns an `Outcome` that says which exit was taken (`MalformedInput`, `InvalidLogOption`, `InvalidOptionDetails` or `Parsed`), in place of the printed message.

Two behaviours of the code are kept exactly:

- Inserting a duplicate key adds a second entry and replaces nothing (parsejson.h:57, 121). The model does the same.
- An absent `log_rotation_size` leaves the field unset, not 0, because the record is `malloc`'d and never zeroed (parsejson.h:74). The model leaves every such field `None`, `option_name` included.

## Model

| member | source | states |
|---|---|---|
| `Json.FindMember` | parsejson.h:43 | The lookup finds nothing exactly when no member has the key. |
| `Json.FindMemberIsFirst` | parsejson.h:43 | A value that is found belongs to the first member with that key. |
| `Json.FirstKeyIsFound` | parsejson.h:43 | The first member with the key is the one that is found. |
| `ParseJson.Parse` | parsejson.h:35-126 | The state machine: text that fails to parse gives `MalformedInput`. A missing or non-array `log_option` gives `InvalidLogOption`, and then neither table gains anything whatever `option_details` holds. A missing or non-array `option_details` gives `InvalidOptionDetails`; the option names are still added, but no records are. Only when both arrays are present is the result `Parsed`, with the records added. |
| `ParseJson.LogConfig.ParseJson` | parsejson.h:35-126 | Each table becomes its old contents followed by exactly what `Parse` says the call adds. The return value is the exit `Parse` predicts. On the two early exits both tables are unchanged; on an invalid `option_details` the detail table is unchanged. Entries already present are never removed or changed. |
| `ParseJson.LogConfig.constructor` | parsejson.h:30-33 | The caller's configuration starts with both tables empty. |
| `ParseJson.ReadDetail` | parsejson.h:74-119 | Filling a fresh record member by member gives `DetailOf(item)`. |
| `ParseJson.ReadString` | parsejson.h:76-114 | One gated copy, stated against the object's member list. A value that is returned is the string of the first member with that key. If the first member with that key is a string, its string is returned. If it has another type, nothing is returned. |
| `ParseJson.ReadNumber` | parsejson.h:116-119 | The gated copy of `log_rotation_size`, stated against the member list. A value that is returned is the number of the first member with that key. If the first member with that key is a number, its value is returned. If it has another type, nothing is returned. |
| `ParseJson.MemberGate` | parsejson.h:76-119 | A field takes the value of the first member with its name when that member has the expected type. A member that is present with another type leaves the field unset, just as an absent member does. |
| `ParseJson.MemberAbsent` | parsejson.h:76-119 | A field whose member is absent is left unset. |
| `ParseJson.StringFieldSource` | parsejson.h:76-114 | A string field that is set holds the string value of the first member with that name. |
| `ParseJson.OptionEntriesAppend` | parsejson.h:51-59 | The first pass over two concatenated arrays equals the pass over the first array followed by the pass over the second. Entries are added in array order. |
| `ParseJson.OptionEntriesOccurrences` | parsejson.h:54-57 | Each option name appears in the table exactly as often as it appears as a string element of `log_option`. There is no duplicate check, and non-string elements add nothing. |
| `ParseJson.OptionEntriesCount` | parsejson.h:51-59 | The first pass adds exactly as many entries as `log_option` has string elements. |
| `ParseJson.ObjectDetailsAppend` | parsejson.h:70-123 | The second pass over two concatenated arrays equals the pass over the first array followed by the pass over the second. Records are added in array order. |
| `ParseJson.ObjectDetailsCount` | parsejson.h:70-123 | The second pass adds exactly as many records as `option_details` has object elements. |
| `ParseJson.ObjectDetailsFromObjects` | parsejson.h:71-73 | Every record added is `DetailOf` some object element of `option_details`. |
| `ParseJson.ParseGrowth` | parsejson.h:51-123 | Once `log_option` is an array, the name table grows by its number of string elements. Once `option_details` is also an array, the detail table grows by its number of object elements. |
| `Scenarios.WellFormedDocument` | parsejson.h:35-126 | With both arrays well formed, the names `a` and `b` are added, and one record is added that has only `option_name`, `logging_enable` and `log_rotation_size` set. |
| `Scenarios.LogOptionNotAnArray` | parsejson.h:43-48 | A `log_option` that is a string stops the call before either table is touched. |
| `Scenarios.OptionDetailsMissing` | parsejson.h:62-67 | A missing `option_details` keeps the names of the first pass and adds no records. |
| `Scenarios.TextDoesNotParse` | parsejson.h:36-40 | If the parse fails, nothing is added. |
| `Scenarios.RotationSizeAsString` | parsejson.h:116-121 | A `log_rotation_size` given as a string leaves the field unset, and the record is still added. |
| `Scenarios.SkipsAndDuplicates` | parsejson.h:51-123 | Non-string names and non-object details are skipped. A repeated name is added twice. |

## Left out

- `parse_json_file` (parsejson.h:128-149) reads a whole file into a buffer and passes it on. It is file I/O. Its failure check asserts a string literal, which never fails, so it has no behaviour to state.
- JSON tokenisation (`cJSON_Parse`) is done by the cJSON library, which is not part of this model. The parse result is an input.
- Object-member matching in `cJSON_GetObjectItem` is also defined in the cJSON library. The model assumes the first member whose key is exactly equal is found. Case-insensitive matching and which duplicate member wins, as that library defines them, are not modelled.
- JSON numbers are modelled as `int`. cJSON stores a double and derives `valueint` from it, clamping to the C `int` range and truncating any fraction. That conversion is floating-point work in a foreign library and is not modelled, so a rotation size outside the `int` range or with a fraction is not captured.
- A `Str(s)` element stands for cJSON's `valuestring` read as a C string. `strdup` (parsejson.h:56, 78) and the key hashing of `HASH_ADD_STR` stop at the first NUL character. The model keeps the whole `s`, so a JSON string `"a\u0000b"` gives the entry `"a"` in C but `LogOption("a\u0000b")` here.
- The key of a detail record whose object has no string `option_name` is an uninitialised pointer in C, and hashing it is undefined behaviour. The model keeps such a record with `optionName == None`.
- Memory management is not modelled: `malloc`, `strdup`, `cJSON_Delete`, uthash's bucket structure and the `printf` diagnostics. The first three have no observable effect on the table contents. The diagnostics are represented by the returned `Outcome`.
- Lookup in the tables (`HASH_FIND`) is not used by `parse_json` and is not modelled.
