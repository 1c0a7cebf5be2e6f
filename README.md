# Bolt menu editor: a Dafny model of its two controllers

This project models the controller of the Bolt CMS "Menu Editor" extension
(`MenueditorExtension`). It covers its two endpoints:

- **`menuEditor`** (module `MenuSave`, `menu_save.dfy`) saves a posted menu tree.
  It first checks the `files:config` permission. When the request carries a
  truthy `menus` field, it JSON-decodes that field, dumps the result as YAML
  (indentation 2, inline level 9999) and re-parses the dump. Any failure in
  these steps ends in an error redirect and nothing is written. When
  `backups.enable` is truthy, it then creates the backup folder, puts a YAML
  dump of the currently loaded menu into it, lists the folder, and deletes the
  first listed entry if the listing holds more entries than `backups.keep`.
  Finally it writes the dump to `config://menu.yml`. Without a truthy `menus`
  field it renders the editor page.
- **`menuEditorSearch`** (module `MenuSearch`, `menu_search.dfy`) builds the
  item list for the editor's "add item" picker in three passes: the content
  store's search results, then the content types whose slug or name matches
  the query, then the taxonomy options whose caption or key matches it.

The application's filesystem and loaded menu form a class, `MenuSave.Store`.
Its methods update the store in place and record each operation in a ghost
trace. `MenuSave.MenuEditor` is proved equal to the specification function
`MenuSave.MenuEditorSpec`, and the save properties are lemmas about that
function. The search passes are loops proved against specification functions
(`SearchItems` and its parts), and the search properties are lemmas about
those functions.

`Php` (`php.dfy`) writes out the PHP 7 behaviour the controller depends on:
- truthiness of strings and configuration scalars;
- `stripos`, which returns an offset or `false`;
- `str_replace` with one-character arguments;
- conversion of a scalar to a string;
- the loose `>` between an integer and a configuration scalar.

`Wrappers` holds `Option`.

Collaborators outside the controller are inputs:
- the permission check is a boolean `allowed`;
- `json_decode` and Symfony's YAML `Dumper::dump` and `Parser::parse` are the partial functions of a `Codec` value (`None` means an error or an exception);
- the configuration is a value;
- the results of `searchContent` are a sequence of records.

### Behaviour of the code worth knowing

- `9999` (line 122) is the dumper's inline level: the first 9999 nesting levels are written in block style, deeper ones inline. `9999` is no depth guard; the only nesting limit is `json_decode`'s default depth of 512 (line 115), whose failure lines 117-118 turn into an error redirect. That limit sits inside the abstract `jsonDecode` here.
- A failing backup dump (line 134) is outside the `try` and is not caught: the controller ends with `BackupDumpThrew`, after the backup folder was created and before the menu file is written (`ChangesByOutcome`).
- The backup branch (line 131) tests `backups.enable`, while the default configuration declares `backups.enabled`. The `enabled` key has no effect (`EnabledKeyIsIgnored`).
- Rotation (lines 137-140) deletes at most one entry per save. It does not prune down to `keep`, so a folder that already holds more than `keep` entries stays at its size (`OverfullFolderStaysOverfull`). If `keep` is absent, PHP compares the count with null as booleans, so every save deletes the first entry.
- `stripos` results for the content-type name and for the taxonomy caption and key are tested for truth. A match at offset 0 therefore counts as no match. For example, the option `spring => Spring` of a taxonomy Seasons matches the query `spring` only at offset 0 (line 205), so the query `spring` lists no Seasons/Spring option item (`SpringScenario`).
- Every taxonomy item's icon comes from `$ct`, the variable left over from the content-type loop. That is the last configured content type, whether or not it matched. With no content types, the variable is undefined, reads as null, and the icon is `""`.

## Model

| member | source | states |
|---|---|---|
| `Php.StrIPos` | src/MenueditorExtension.php:190 | `stripos` returns the first offset where the query occurs, ignoring ASCII case, and nothing occurs before it. It returns `false` (None) exactly when the needle is empty or occurs nowhere. |
| `Php.FoundIff` | src/MenueditorExtension.php:190 | `stripos(...) !== false` holds iff the needle is non-empty and occurs at some offset. |
| `Php.TruthyIff` | src/MenueditorExtension.php:205 | A truthy `stripos(...)` holds iff the needle is non-empty, occurs somewhere, and does not occur at offset 0. |
| `Php.StrReplaceChar` | src/MenueditorExtension.php:183 | `str_replace` keeps the length, replaces every occurrence of the search character, keeps every other character, and leaves no search character behind. |
| `Php.TruthyString` | src/MenueditorExtension.php:113 | A string is truthy iff it is neither `""` nor `"0"`: the `menus` test at line 113 and the `?:` on the image at line 178. |
| `Php.Truthy` | src/MenueditorExtension.php:131 | A configuration scalar is truthy iff its string form is: null, `false`, `0`, `""` and `"0"` are falsy, every other null, bool, int or string is truthy. |
| `Php.PhpString` | src/MenueditorExtension.php:135 | The string form of a scalar, as in the folder path: null and `false` give `""`, `true` gives `"1"`, an integer its decimal digits with a leading `-` when negative, and that integer string reads back as the same integer. |
| `Php.LooseGreater` | src/MenueditorExtension.php:138 | `count > keep`: against null or a bool both sides compare as bools, against an integer numerically, against a string by the string's leading integer. |
| `Php.LooseGreaterReadsIntString` | src/MenueditorExtension.php:138 | A `keep` given as the string form of an integer k compares exactly as the integer k. |
| `Php.LooseGreaterNullIsFalse` | src/MenueditorExtension.php:138 | An absent `keep` reads as null and compares as `false`, so a count is greater iff it is non-zero. |
| `MenuSearch.Icon` | src/MenueditorExtension.php:196 | A normalised icon never contains `':'`. |
| `MenuSave.Store.CreateDirectory` | src/MenueditorExtension.php:132 | `createDir` adds an empty folder unless the folder exists, logs the operation, and changes nothing else. |
| `MenuSave.Store.Put` | src/MenueditorExtension.php:135 | Putting a backup appends it to the end of its folder's listing and changes nothing else. |
| `MenuSave.Store.ListContents` | src/MenueditorExtension.php:137 | `listContents` returns the folder's entries in listing order, or none for a missing folder. |
| `MenuSave.Store.DeleteFirst` | src/MenueditorExtension.php:139 | `reset($backups)->delete()` removes exactly the first listed entry of the folder. |
| `MenuSave.Store.WriteMenu` | src/MenueditorExtension.php:143 | The menu file holds the given text afterwards. No folder changes. |
| `MenuSave.MenuEditor` | src/MenueditorExtension.php:104-155 | The step-by-step controller ends with exactly the outcome and store state that `MenuEditorSpec` gives for its inputs and the prior state. |
| `MenuSave.DeniedChangesNothing` | src/MenueditorExtension.php:108-110 | Without `files:config`, the outcome is access denied and the store is unchanged. |
| `MenuSave.RejectedPayloadChangesNothing` | src/MenueditorExtension.php:113-129 | A posted payload that fails to decode, to dump or to re-parse gives an error redirect. The menu file, every folder and the trace are unchanged. |
| `MenuSave.ChangesByOutcome` | src/MenueditorExtension.php:104-155 | Denied, error and page outcomes change nothing. A failing backup dump leaves the store exactly as creating the backup folder leaves it. The menu file changes only on a successful save. The outcome is denied iff `allowed` is false, and it is the page iff the caller is allowed and `menus` is not truthy. |
| `MenuSave.SavedFileIsDumpOfPayload` | src/MenueditorExtension.php:113-145 | After a successful save, the caller was allowed and `menus` was truthy. The payload decoded, and the menu file holds exactly its YAML dump (indentation 2, inline level 9999), which the parser accepted. |
| `MenuSave.MenuFileWrittenOnceLast` | src/MenueditorExtension.php:130-145 | The trace only grows. The outcome is a successful save iff the last new operation is the menu write. No other new operation writes the menu file, so the write comes once and after every backup operation. |
| `MenuSave.DisabledBackupsTouchNoFolder` | src/MenueditorExtension.php:131-143 | When `backups.enable` is not truthy, no folder changes, and the only possible operation is the menu write. |
| `MenuSave.EnabledKeyIsIgnored` | src/MenueditorExtension.php:131 | Backups are off under the default configuration of lines 89-94. An `enabled` entry, the key declared at line 92, never changes whether backups run. |
| `MenuSave.SavedBackupRotates` | src/MenueditorExtension.php:131-141 | With backups on, a successful save dumps the current menu. The backup folder's listing becomes `Rotate` of the old listing with that dump, and every other folder is unchanged. |
| `MenuSave.RotateDeletesAtMostFirst` | src/MenueditorExtension.php:137-140 | One rotation adds one entry and deletes at most one. The result is a suffix of the old listing plus the new backup. It is one entry shorter than listing-plus-backup iff the count after the put is loosely greater than `keep`. |
| `MenuSave.RetentionKeepsNewest` | src/MenueditorExtension.php:135-140 | Starting from an empty folder with an integer `keep` of k, n saves leave exactly the min(n, k) newest backups, in creation order. |
| `MenuSave.OverfullFolderStaysOverfull` | src/MenueditorExtension.php:137-140 | A folder holding more than `keep` entries keeps its size through any number of saves. |
| `MenuSearch.MenuEditorSearch` | src/MenueditorExtension.php:164-218 | Without `files:config`, the endpoint denies access. Otherwise it answers exactly `SearchItems`: search items, then content-type items, then taxonomy items. |
| `MenuSearch.SearchPass` | src/MenueditorExtension.php:175-186 | The first loop builds exactly `RecordItems` of the search results. |
| `MenuSearch.ContentTypePass` | src/MenueditorExtension.php:189-199 | The second loop builds exactly `ContentTypeItems`, and leaves `$ct` holding the last configured content type, or nothing when there are none. |
| `MenuSearch.TaxonomyPass` | src/MenueditorExtension.php:202-216 | The outer taxonomy loop builds exactly `TaxonomyItems`, skipping taxonomies without options. Each item uses the icon of the content type left in `$ct`, or `""` when there is none. |
| `MenuSearch.OptionPass` | src/MenueditorExtension.php:204-214 | The inner loop over one taxonomy's options builds exactly that taxonomy's `OptionItems`, in option order. |
| `MenuSearch.RecordItemsOneToOne` | src/MenueditorExtension.php:175-186 | There is one item per search result, in search order. Item i is result i's mapping, with the image `''` when it is falsy and the icon normalised. |
| `MenuSearch.ContentTypeListedIff` | src/MenueditorExtension.php:190 | A content type is listed iff it is not viewless and the query is non-empty and either occurs anywhere in the slug, or occurs in the name but not at offset 0. |
| `MenuSearch.ContentTypeItemsIff` | src/MenueditorExtension.php:189-199 | An item is in the content-type part iff it is the overview item (link and id the slug, title the name, type `Overview`) of some listed content type. |
| `MenuSearch.OptionListedIff` | src/MenueditorExtension.php:205 | A taxonomy option is listed iff the query is non-empty and occurs in its caption, or in its key, but not at that string's offset 0. |
| `MenuSearch.OptionItemsIff` | src/MenueditorExtension.php:204-214 | An item is among one taxonomy's option items iff it is the item of one of that taxonomy's listed options. |
| `MenuSearch.TaxonomyItemsIff` | src/MenueditorExtension.php:202-216 | An item is in the taxonomy part iff it is the item of a listed option of a taxonomy that has options. The item's link and id are both `slug/key`, its title is the caption, its type is `name (Taxonomy)`, and its icon is the leftover one. |
| `MenuSearch.SearchItemsOrder` | src/MenueditorExtension.php:174-217 | The list holds the search items first, in search order. Overview items come next, then taxonomy items only. Each taxonomy item has link equal to id and the icon of the last configured content type. |
| `MenuSearch.NoIconHasColon` | src/MenueditorExtension.php:174-217 | No icon in the list contains `':'`. |
| `MenuSearch.SpringScenario` | src/MenueditorExtension.php:189-215 | The query `spring` over results "Spring Sale" and "Summer Picnic", the content type `events`/"Events" and the taxonomy option `spring => Spring` yields the two result items only. |

## Left out

- Route, menu-entry, Twig-path and asset registration (lines 35-82) are framework wiring with no behaviour of their own. Of the default configuration (lines 87-95), only its `backups` section is modelled (`DefaultConfig`). The `fields` entry is only passed to the template.
- Template rendering and HTTP responses: the model returns only the outcome kind (denied, error redirect, saved redirect, editor page, or failure in the backup dump). Flash messages are not modelled.
- The internals of `json_decode` and of Symfony's YAML dumper and parser belong to foreign libraries. They are arbitrary partial functions here, so no round-trip property of YAML is stated.
- The backup file name (`menu.<time()>.yml`) and the overwrite of a backup written in the same second are not modelled. Each backup is one entry holding the dump text. A new entry is assumed to be listed after the existing ones, so "first listed" is "oldest" only under that assumption.
- Failures of the filesystem itself (`createDir`, `put`, `delete`, `listContents` throwing) are not modelled. Every filesystem operation succeeds.
- Concurrent saves from two requests are not modelled. One call runs alone against the store.
- `searchContent` and the record getters (`getTitle`, `getImage`, `getExcerpt(100)`, `link`, the content-type array) belong to the content store. Their results are given as strings. A non-string image is not modelled.
- `stripos` folds only ASCII letters. Locale and Unicode case folding are left out.
- The query `q` is a string. A missing `q` (null) is not modelled.
- Taxonomy option keys are given in their string form, and option captions, slugs and names are strings.
- `menus` is a string when present. A `menus` field posted as an array is not modelled.
- Configuration values (`Setting`) are only null, bool, int or string. A float (`keep: 2.5`, `enable: 0.0`) or an array value (which PHP 7 always treats as greater in `count > keep`) is not modelled.
- `Php.LeadingInt` reads only an optional sign and leading digits. PHP's acceptance of leading whitespace, fractions and exponents when comparing `keep` as a string is not modelled.
