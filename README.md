# chAIt site-list bookkeeping, in Dafny

chAIt is a desktop window that shows several AI chat web sites as browser
tabs. It keeps a list of sites (`{name, url}` entries, in tab order) in
`sites.json` under the application-data directory. This project models the
part of the main window that does not depend on Qt. It covers:

- how the list is loaded: what `load_sites` accepts from the parsed file, and
  the two default sites it falls back to;
- how a site is added: the stripped dialog inputs, the empty-field checks,
  the `https://` fix-up of a URL without a scheme, the duplicate check on
  name and URL, and the append followed by a save that may fail;
- how the tab widget and the `web_views` dictionary are filled, one tab per
  site, with tab `i` showing `sites[i]`.

`main.py` is an older single-file copy of `chait/app.py` and
`chait/dialogs.py`. Its `load_sites`, `save_sites`, `add_site_tab`,
`get_inputs` and tab population have the same logic. They differ only in
comments, in a console print of the tab count at main.py:238, and in naming
the dialog's Accepted code through `QDialog` rather than `AddSiteDialog`
(main.py:266, chait/app.py:222), which is the same value. So one model
stands for both. The table below cites whichever copy a member is
checked against.

Modules:

- `json.dfy`, module `Json`: the value that `json.load` returns. A JSON
  object is a Python dict, so it is modelled as a map from keys to values.
- `dialogs.dfy`, module `Dialogs`: Python's `str.strip()` with no argument,
  over the exact set of characters for which `str.isspace()` is true, and
  `get_inputs`.
- `sites.dfy`, module `Sites`: the pure rules. This is the shape check and
  its fallback, URL normalisation, the duplicate scan, and the add rule as a
  function from the old list and the stripped inputs to a result code and
  the new list. The properties are proved as lemmas here.
- `app.dfy`, module `App`: class `MainWindow`. It holds the site list, the
  tabs, `web_views` keyed by tab index, the current tab index, and the state
  of `sites.json` as this run has left it. Its methods are proved against the functions of `Sites`.

Inputs the program gets from outside become parameters:

- the outcome of reading the file (missing, decode error, other error, or a
  parsed value);
- whether the dialog was accepted;
- the two raw field texts;
- how the file write ends: the open fails, the write fails after the open,
  or the whole list is written.

Behaviour worth knowing, as the code has it:

- Entries loaded from the file are not checked for uniqueness. They may
  carry extra keys, and their `name` and `url` values may have any JSON type.
  A stored value equals a new name or URL only if it is that exact string.
- The duplicate check compares the new, normalised URL with the stored URLs
  as they are. A stored `chatgpt.com` therefore does not block adding
  `chatgpt.com`, which is stored as `https://chatgpt.com`
  (`StoredUrlIsComparedAsWritten`). Next to the defaults, `chatgpt.com` is
  refused (`SchemeLessUrlCollidesWithDefault`).
- The scheme test is case-sensitive, as `str.startswith` is.
- A failed save shows a warning and does not undo the add. The new entry
  stays in the list and its tab is still added.
- A failed save does not always leave the file as it was. `save_sites` opens
  the file for writing, and that empties it before anything is dumped. If
  the dump or the close then fails, the file is left empty or holding only
  the start of the JSON text. Neither parses, so the next start-up shows the
  two defaults and every saved site is lost (`LoadAfterSave`). Only a
  failure of the open itself leaves the old file in place.

The code has no edit or remove operation. It checks uniqueness only for new
entries, not for the entries loaded from the file. The model follows the
code: distinctness is a precondition of `AddPreservesDistinct`, not an
invariant of `MainWindow`.

## Model

| member | source | states |
|---|---|---|
| `Json.SiteEntry` | chait/app.py:240 | the appended entry is an object with exactly the keys `name` and `url`, holding the given strings |
| `Sites.AllSiteObjects` | chait/app.py:55 | the element-by-element `all(...)` scan holds iff every element is an object with both `name` and `url` |
| `Sites.LoadSites` | main.py:90-115 | the result is always a list of site objects; an accepted parsed list is returned as it is, and every other outcome gives the defaults |
| `Sites.LoadKeepsExactlySiteLists` | chait/app.py:55-60 | a parsed value comes back unchanged iff it is a list of objects that each have `name` and `url` |
| `Sites.LoadFailureGivesDefaults` | chait/app.py:47-69 | a missing file, a decode error or any other read error gives exactly ChatGPT→https://chatgpt.com, then AI Studio→https://aistudio.google.com |
| `Sites.AfterSave` | chait/app.py:73-79 | a failed open leaves the file as it was, a failure after the open leaves it damaged, and a completed write leaves it holding the whole list |
| `Sites.LoadAfterSave` | chait/app.py:71-79 | at the next start-up, a completed save loads back exactly the saved list, and a save that failed after the open loads as the two defaults |
| `Sites.NormaliseUrl` | chait/app.py:233-234 | the result starts with `http://` or `https://`; such a URL is left as it is, and any other URL gets `https://` in front |
| `Sites.NormaliseIdempotent` | main.py:278-279 | normalising twice is normalising once |
| `Sites.AnyCollision` | chait/app.py:236 | the `any(...)` scan holds iff some stored entry has a name equal to the new name or a URL equal to the new URL |
| `Sites.AddSite` | chait/app.py:225-241 | an empty name is refused first, then an empty URL, then a name or normalised URL equal to a stored one; a refusal keeps the list; an accepted add keeps every earlier entry, appends `{name, normalised url}` last, lengthens the list by one, and the stored URL has a scheme |
| `Sites.DefaultsDistinct` | main.py:92-95 | the two defaults are site objects with different names and different URLs |
| `Sites.AddPreservesDistinct` | chait/app.py:236-241 | if names and URLs were pairwise distinct before an add, they still are afterwards |
| `Sites.AddTwiceIsDuplicate` | main.py:282-288 | repeating an add that went through is refused as a duplicate and changes nothing |
| `Sites.SchemeLessUrlCollidesWithDefault` | chait/app.py:233-238 | `chatgpt.com` is refused next to the defaults, because it collides with `https://chatgpt.com` |
| `Sites.StoredUrlIsComparedAsWritten` | main.py:278-284 | for any list holding a scheme-less URL `u`, adding `u` goes through when no entry has the new name or `https://` + `u`, and appends the entry with `https://` + `u`: stored URLs are not normalised before the comparison |
| `Sites.StoredUrlExample` | chait/app.py:233-241 | a site loaded as `chatgpt.com` does not stop `chatgpt.com` from being added again as `https://chatgpt.com` |
| `Dialogs.LeadingSpace` | chait/dialogs.py:40 | the left-hand scan of `strip` skips only whitespace and stops at the first non-whitespace character |
| `Dialogs.TrailingSpace` | chait/dialogs.py:40 | the right-hand scan of `strip` skips only whitespace and stops at the last non-whitespace character |
| `Dialogs.Strip` | chait/dialogs.py:40 | the stripped text is no longer than the input and neither starts nor ends with whitespace |
| `Dialogs.GetInputs` | main.py:53-54 | both returned fields have no leading or trailing whitespace, and a field is empty iff its raw text is all whitespace |
| `Dialogs.StripIsMaximalSlice` | chait/dialogs.py:40 | the stripped text is one contiguous slice of the input; everything cut off on either side is whitespace and the slice is trimmed |
| `Dialogs.StripUnchangedIffTrimmed` | chait/dialogs.py:40 | `strip` returns its input unchanged iff the input neither starts nor ends with whitespace |
| `Dialogs.StripIdempotent` | chait/dialogs.py:40 | stripping an already stripped string returns it unchanged |
| `Dialogs.StripEmptyIffAllSpace` | chait/dialogs.py:40 | a field strips to the empty string iff it is empty or all whitespace |
| `App.BlankNameRejected` | chait/app.py:223-227 | a blank name field reaches the add rule as the empty string and is refused, with the list unchanged |
| `App.BlankUrlRejected` | main.py:267-275 | a blank URL field with a non-blank name field is refused as an empty URL, with the list unchanged |
| `App.MainWindow.constructor` | chait/app.py:33-42 | the window starts from the loaded list with one tab per site, the first tab selected when there is one, and the file not yet written by this run |
| `App.MainWindow.PopulateTabs` | main.py:229-241 | after population, tab `i` is titled with `sites[i]`'s name and loads its URL, `web_views` maps exactly the tab indices to their views, the tab count equals the list length, and tab 0 is current when there are tabs |
| `App.MainWindow.SaveSites` | main.py:117-125 | the file becomes what `AfterSave` gives for the write outcome; a warning is shown exactly when the write did not complete; after a completed write the next start-up loads the current list, and after a write that failed past the open it loads the defaults |
| `App.MainWindow.AppendSite` | chait/app.py:240-247 | the entry is appended, the save leaves the file as `AfterSave` says, and a tab for the entry is added at index `len(sites)-1`, recorded in `web_views` and made current |
| `App.MainWindow.AddSiteTab` | main.py:263-297 | a cancelled dialog changes nothing; otherwise the result code and the new list are those of the add rule on the stripped inputs; a refusal changes nothing; an accepted add pairs the new tab, at index `len(sites)-1`, with the new last entry however the save ends, and leaves the file as `AfterSave` says; distinct names and URLs stay distinct |

## Left out

- Qt widgets, layouts, styles, the corner buttons and the construction of the
  add-site dialog are left out. They are user-interface plumbing.
- The tray icon, window events, `closeEvent` and `close_application` are left
  out. They are OS and GUI integration.
- The web engine profile, page and view creation, and `refresh_current_tab`
  are left out. They are opaque calls into the browser engine. A web view is
  modelled only by the URL it is given, as a value, so two views of the same
  URL are not told apart.
- File I/O and JSON parsing and serialising are left out. The read is a
  parameter giving its outcome. The save is a parameter giving how the write
  ends. `ReadsAs` assumes that `json.load` of a complete `json.dump` gives
  back the same value, and that an empty file or a cut-off beginning of a
  dump makes the read fail.
- JSON numbers are modelled as integers. Floats never equal a string, so they
  cannot change an acceptance or a duplicate decision. JSON strings are
  Dafny strings, which hold only Unicode scalar values. A Python string from
  `json.load` can also hold a lone surrogate (from an escape such as
  `\ud800`), so such a stored name or URL has no counterpart in the model.
- Console and warning-dialog messages are left out. Each refusal is reported
  as a result code instead.
- Storage paths, directory creation and resource lookup are left out. They
  are platform and library calls.
- The entry points in `setup.py`, `chait/__main__.py` and `main.py:299-319`,
  and the stylesheet loading, are left out. They hold no site-list logic.
- A non-string `name` or `url` in a loaded file is kept as its JSON value in
  the tab title and web view. The model does not capture the type error that
  Qt would raise for such a value.
- Qt's own `currentIndex` changes while tabs are removed or added one by one
  are left out. Only the value after each operation is modelled: none (-1)
  for an empty tab widget, 0 after population, and the new index after an
  add.
