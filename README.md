# flagslice in Dafny

A model of the `flagslice` package: a "repeatable string" command-line flag.
Each occurrence of the flag (`-f foo -f bar`) is appended to a list of
strings that the caller owns. The list can be seeded with a default when the
flag is registered, and the first occurrence on the command line throws that
default away.

- `flagslice.dfy` (module `FlagSlice`) models `flagslice.go`.
  - `Box` stands in for the caller's `*[]string`.
  - `StringSlice` is the flag value. It holds the caller's `Box` (`s`) and the
    one-way flag `d` ("defaults already discarded").
  - `StringSlice.Set` and `StringSlice.String` are the two methods the flag
    parser calls.
  - `StringVarFS` and `StringFS` seed the list and create the holder.
  - Beside the classes is a value-level specification. `State` is the
    holder's state. `Registered` is the state right after registration,
    once the default has been appended (flagslice.go:93-96). `Step` is one
    occurrence. `Apply` is a left-to-right run of occurrences. `Set` is
    proved to perform `Step` on the holder's state.
  - `Render` is the `%v` rendering of a string slice by Go's formatter: the
    elements separated by single spaces, inside square brackets.
- `flagslice_test.dfy` (module `FlagSliceTest`) models `flagslice_test.go`.
  - `Parse` is the flag parser's side of the contract: one `Set` per
    occurrence, left to right.
  - `TestParse` registers the flag on a fresh list and parses.
  - `TestString` replays the package's four test cases and returns their
    results.

## Model

| member | source | states |
|---|---|---|
| FlagSlice.StringSlice.Set | flagslice.go:59-69 | never fails; sets `d`; the target becomes `[v]` on the first call and the old target followed by `v` on later calls; the holder's state moves by `Step` |
| FlagSlice.StringSlice.String | flagslice.go:52-57 | the text is empty exactly when the target list is empty; otherwise it is the `%v` rendering of the list; reads only the list |
| FlagSlice.Box.constructor | flagslice.go:80 | a new caller list holding the given contents; `StringFS` starts it empty, as `&[]string{}` does |
| FlagSlice.StringSlice.constructor | flagslice.go:93 | a new holder over the caller's list, with `d` false |
| FlagSlice.StringVarFS | flagslice.go:92-98 | the caller's list becomes its prior contents followed by the default (nothing for a nil default); `d` starts false; only the caller's list is written |
| FlagSlice.StringFS | flagslice.go:79-83 | returns a fresh list that holds exactly the default, and is empty for a nil default |
| FlagSlice.Step | flagslice.go:62-67 | after one occurrence `v` the defaults are discarded; `v` is last; if they were already discarded, every earlier element keeps its place and the length grows by exactly one; otherwise the list is just `[v]` |
| FlagSlice.Apply | flagslice.go:59-69 | no occurrences change nothing; `d` never goes back to false and is true after any occurrence; the final length is the occurrence count, plus the old length if the defaults were already discarded |
| FlagSlice.ApplyTarget | flagslice.go:62-67 | after n >= 1 occurrences the list is what was kept (everything if the defaults were already discarded, nothing otherwise) followed by the occurrences in order, duplicates included |
| FlagSlice.ApplyConcat | flagslice.go:59-69 | parsing occurrences `a` and then `b` gives the same state as parsing `a + b` in one run |
| FlagSlice.OccurrencesReplaceDefaults | flagslice.go:63-67 | after the registration seed of flagslice.go:93-96, whatever the default and the list's prior contents, n >= 1 occurrences leave the list equal to exactly those occurrences, with `d` true; defaults are never merged in |
| FlagSlice.Render | flagslice.go:56 | the rendering of a list is bracketed: it starts with `[` and ends with `]`, so it is never empty |
| FlagSlice.JoinShowsElement | flagslice.go:56 | each element appears verbatim in the space-joined text, at its computed offset |
| FlagSlice.OffsetsInOrder | flagslice.go:56 | an earlier element ends strictly before a later one starts in the joined text |
| FlagSlice.RenderShowsElement | flagslice.go:56 | every element of the list, including the only element of a one-element list, appears verbatim in the rendering after the opening bracket |
| FlagSlice.RenderShowsElementsInOrder | flagslice.go:56 | in the rendering, any two elements both appear verbatim, in list order and without overlapping |
| FlagSliceTest.Parse | flagslice_test.go:55 | parsing calls `Set` once per occurrence, left to right, so the holder's state becomes `Apply` of the occurrences |
| FlagSliceTest.TestParse | flagslice_test.go:52-57 | with no occurrences the result is the default, or the empty list for a nil default; with occurrences it is exactly those occurrences, in order |
| FlagSliceTest.TestString | flagslice_test.go:18-48 | nil, empty and non-empty (`["tridge","baaz"]`) defaults with occurrences `foo`, `bar` all give `["foo","bar"]`; a nil default with no occurrences gives `[]` |

## Left out

- The `sync.Mutex` in `stringSlice` (flagslice.go:49, 60-61, 93) is left out. The model is single-threaded, and the lock only guards the clear-then-append in `Set`.
- Registration with `flag.FlagSet.Var`, and the flag name and usage text, are left out. They are calls into Go's `flag` package. `StringVarFS` and `StringFS` return the holder in place of registering it.
- `String` and `StringVar` (flagslice.go:74-76, 87-89) are not modelled on their own. Without flag sets they are `StringFS` and `StringVarFS` on the process-wide flag set.
- Tokenising the argument list (`-f foo`, `-f=bar`) is left out. It belongs to `flag.FlagSet.Parse`. `Parse` takes the flag's occurrence values directly.
- FlagSlice.StringSlice.String: the nil target pointer case is not modelled. A `Box` is never null. Go's nil-slice versus empty-slice distinction is not modelled either. Both read as the empty sequence.
- A Go default is a slice value. The model passes it as a `seq`, so registration and `Set` cannot change it. The frames (`modifies p` and `modifies this, s`) also show that no other list is written. The sharing of one backing array between the caller's target slice and the default slice is not modelled.
- The `error` result of `Set` is modelled as `Option<Error>`, and `Set` always returns `None`. Parse's stop on an error is therefore not modelled.
- A Go string is a sequence of bytes and need not be valid UTF-8. The model's `string` is a sequence of Unicode characters. So `Offset` and the rendering lemmas count characters, not bytes, and a string that is not valid UTF-8 cannot be represented. `Set` and registration do not depend on this.
