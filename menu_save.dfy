/**
 * The save path of the menu editor controller (`menuEditor`): check the
 * permission, validate a posted menu by JSON-decoding it, dumping it as YAML
 * and re-parsing the dump, optionally write a backup of the current menu and
 * delete one old backup, then overwrite `config://menu.yml` with the dump.
 *
 * The store is a class whose fields the operations update in place; the JSON
 * decoder and the YAML dumper and parser are foreign libraries and are passed
 * in as partial functions (None: the library reported an error or threw).
 */
module MenuSave {
  import opened Wrappers
  import opened Php

  /** A value decoded from the posted JSON text (an associative PHP array tree). */
  datatype Value =
    | Null
    | Bool(b: bool)
    | Number(n: int)
    | Text(t: string)
    | Array(entries: seq<(string, Value)>)

  /** The indentation the YAML dumper is set to before dumping. */
  const Indentation: nat := 2

  /** The dumper's inline level: the first 9999 nesting levels are written in block style, deeper ones inline. */
  const InlineLevel: nat := 9999

  /** The foreign codecs: `json_decode`, Symfony's `Dumper::dump` and `Parser::parse`. */
  datatype Codec = Codec(
    jsonDecode: string -> Option<Value>,
    yamlDump: (nat, Value, nat) -> Option<string>,  // indentation, input, inline level
    yamlParse: string -> Option<Value>)

  /** The extension's configuration; only its `backups` section affects saving. */
  datatype Config = Config(backups: map<string, Setting>)

  /** The extension's default configuration: its backups section sets `enabled`. */
  const DefaultConfig: Config := Config(map["enabled" := SBool(false)])

  /** What the controller answers, reduced to its kind. */
  datatype Outcome =
    | AccessDenied                            // AccessDeniedException
    | ErrorRedirect                           // flash error, redirect back
    | SavedRedirect                           // flash success, redirect back
    | EditorPage(menus: Value, config: Config) // the rendered editor page
    | BackupDumpThrew                         // the backup dump threw outside the try block

  /** One filesystem operation, in the order the controller performs them. */
  datatype FsOp =
    | CreateDir(path: string)
    | PutBackup(folder: string, text: string)
    | DeleteEntry(folder: string, text: string)
    | WriteMenuFile(text: string)

  /**
   * The persistent state the controller can change: the text of
   * `config://menu.yml`, each folder's listing (in listing order), and the
   * trace of operations performed so far.
   */
  datatype FsState = FsState(menuFile: string, folders: map<string, seq<string>>, trace: seq<FsOp>)

  function ListingOf(fs: FsState, folder: string): seq<string> {
    if folder in fs.folders then fs.folders[folder] else []
  }

  function AfterCreateDir(fs: FsState, path: string): FsState {
    fs.(folders := if path in fs.folders then fs.folders else fs.folders[path := []],
        trace := fs.trace + [CreateDir(path)])
  }

  /** A new backup file is listed after the entries already in its folder. */
  function AfterPut(fs: FsState, folder: string, text: string): FsState {
    fs.(folders := fs.folders[folder := ListingOf(fs, folder) + [text]],
        trace := fs.trace + [PutBackup(folder, text)])
  }

  function AfterDeleteFirst(fs: FsState, folder: string): FsState
    requires ListingOf(fs, folder) != []
  {
    var listing := ListingOf(fs, folder);
    fs.(folders := fs.folders[folder := listing[1..]],
        trace := fs.trace + [DeleteEntry(folder, listing[0])])
  }

  function AfterWriteMenu(fs: FsState, text: string): FsState {
    fs.(menuFile := text, trace := fs.trace + [WriteMenuFile(text)])
  }

  /** The application's filesystem and loaded configuration, updated in place. */
  class Store {
    /** `$app['config']->get('menu')`: the menu currently loaded. */
    const menu: Value
    /** The contents of `config://menu.yml`. */
    var menuFile: string
    /** Each directory's entries, in the order `listContents` returns them. */
    var folders: map<string, seq<string>>
    ghost var trace: seq<FsOp>

    ghost function State(): FsState
      reads this
    {
      FsState(menuFile, folders, trace)
    }

    constructor (menu: Value, menuFile: string, folders: map<string, seq<string>>)
      ensures this.menu == menu
      ensures State() == FsState(menuFile, folders, [])
    {
      this.menu := menu;
      this.menuFile := menuFile;
      this.folders := folders;
      trace := [];
    }

    /** `createDir`: a no-op on a directory that exists. */
    method CreateDirectory(path: string)
      modifies this
      ensures State() == AfterCreateDir(old(State()), path)
    {
      if path !in folders {
        folders := folders[path := []];
      }
      trace := trace + [CreateDir(path)];
    }

    /** `put` of a new backup file into `folder`. */
    method Put(folder: string, text: string)
      modifies this
      ensures State() == AfterPut(old(State()), folder, text)
    {
      var listing := if folder in folders then folders[folder] else [];
      folders := folders[folder := listing + [text]];
      trace := trace + [PutBackup(folder, text)];
    }

    /** `listContents`: the folder's entries in listing order. */
    method ListContents(folder: string) returns (entries: seq<string>)
      ensures entries == ListingOf(State(), folder)
    {
      entries := if folder in folders then folders[folder] else [];
    }

    /** `reset($entries)->delete()`: delete the first listed entry. */
    method DeleteFirst(folder: string)
      requires ListingOf(State(), folder) != []
      modifies this
      ensures State() == AfterDeleteFirst(old(State()), folder)
    {
      var listing := folders[folder];
      folders := folders[folder := listing[1..]];
      trace := trace + [DeleteEntry(folder, listing[0])];
    }

    /** `getFile('config://menu.yml')->put($text)`. */
    method WriteMenu(text: string)
      modifies this
      ensures State() == AfterWriteMenu(old(State()), text)
    {
      menuFile := text;
      trace := trace + [WriteMenuFile(text)];
    }
  }

  /** `if ($request->get('menus'))`: a posted, truthy `menus` field. */
  predicate Posted(menus: Option<string>) {
    menus.Some? && TruthyString(menus.value)
  }

  /** The controller tests the key `enable`, whatever else the section holds. */
  predicate BackupsEnabled(config: Config) {
    Truthy(Lookup(config.backups, "enable"))
  }

  function BackupFolder(config: Config): string {
    PhpString(Lookup(config.backups, "folder"))
  }

  function Keep(config: Config): Setting {
    Lookup(config.backups, "keep")
  }

  /** The validation inside the try block: decode, dump, re-parse; Some(dump) when none failed. */
  function Validate(codec: Codec, payload: string): Option<string> {
    match codec.jsonDecode(payload)
    case None => None
    case Some(decoded) =>
      match codec.yamlDump(Indentation, decoded, InlineLevel)
      case None => None
      case Some(yaml) => if codec.yamlParse(yaml).Some? then Some(yaml) else None
  }

  /** The listing after one backup is put into a folder holding `listing` and the folder is pruned. */
  function Rotate(listing: seq<string>, snapshot: string, keep: Setting): seq<string> {
    var after := listing + [snapshot];
    if LooseGreater(|after|, keep) then after[1..] else after
  }

  /** The whole controller, as a function of the inputs and the state before it runs. */
  function MenuEditorSpec(allowed: bool, menus: Option<string>, config: Config, codec: Codec,
                          menu: Value, fs: FsState): (Outcome, FsState)
  {
    if !allowed then (AccessDenied, fs)
    else if !Posted(menus) then (EditorPage(menu, config), fs)
    else
      match Validate(codec, menus.value)
      case None => (ErrorRedirect, fs)
      case Some(yaml) =>
        if !BackupsEnabled(config) then (SavedRedirect, AfterWriteMenu(fs, yaml))
        else
          var folder := BackupFolder(config);
          var created := AfterCreateDir(fs, folder);
          match codec.yamlDump(Indentation, menu, InlineLevel)
          case None => (BackupDumpThrew, created)
          case Some(backup) =>
            var put := AfterPut(created, folder, backup);
            var pruned :=
              if LooseGreater(|ListingOf(put, folder)|, Keep(config)) then AfterDeleteFirst(put, folder)
              else put;
            (SavedRedirect, AfterWriteMenu(pruned, yaml))
  }

  /**
   * The controller `menuEditor`: `allowed` is the user service's answer for
   * `files:config`, `menus` the request's `menus` field.
   */
  method MenuEditor(store: Store, allowed: bool, menus: Option<string>, config: Config, codec: Codec)
    returns (outcome: Outcome)
    modifies store
    ensures (outcome, store.State()) ==
            MenuEditorSpec(allowed, menus, config, codec, store.menu, old(store.State()))
  {
    if !allowed {
      return AccessDenied;
    }
    if menus.Some? && TruthyString(menus.value) {
      var decoded := codec.jsonDecode(menus.value);
      if decoded.None? {
        return ErrorRedirect;
      }
      var yaml := codec.yamlDump(Indentation, decoded.value, InlineLevel);
      if yaml.None? {
        return ErrorRedirect;
      }
      var reparsed := codec.yamlParse(yaml.value);
      if reparsed.None? {
        return ErrorRedirect;
      }
      if Truthy(Lookup(config.backups, "enable")) {
        var folder := PhpString(Lookup(config.backups, "folder"));
        store.CreateDirectory(folder);
        var backup := codec.yamlDump(Indentation, store.menu, InlineLevel);
        if backup.None? {
          return BackupDumpThrew;
        }
        store.Put(folder, backup.value);
        var backups := store.ListContents(folder);
        if LooseGreater(|backups|, Lookup(config.backups, "keep")) {
          store.DeleteFirst(folder);
        }
      }
      store.WriteMenu(yaml.value);
      return SavedRedirect;
    }
    return EditorPage(store.menu, config);
  }

  // ---------------------------------------------------------------------------
  // Properties of the save procedure

  /** Without `files:config` the controller denies access and changes nothing. */
  lemma DeniedChangesNothing(menus: Option<string>, config: Config, codec: Codec, menu: Value, fs: FsState)
    ensures MenuEditorSpec(false, menus, config, codec, menu, fs) == (AccessDenied, fs)
  {
  }

  /**
   * A payload that fails to decode, to dump or to re-parse yields an error
   * redirect and leaves the menu file, every folder and the trace as they were.
   */
  lemma RejectedPayloadChangesNothing(menus: Option<string>, config: Config, codec: Codec, menu: Value, fs: FsState)
    requires Posted(menus)
    requires codec.jsonDecode(menus.value).None? ||
             codec.yamlDump(Indentation, codec.jsonDecode(menus.value).value, InlineLevel).None? ||
             codec.yamlParse(codec.yamlDump(Indentation, codec.jsonDecode(menus.value).value, InlineLevel).value).None?
    ensures MenuEditorSpec(true, menus, config, codec, menu, fs) == (ErrorRedirect, fs)
  {
  }

  /** Which outcomes may change which part of the store. */
  lemma ChangesByOutcome(allowed: bool, menus: Option<string>, config: Config, codec: Codec, menu: Value, fs: FsState)
    ensures var (outcome, after) := MenuEditorSpec(allowed, menus, config, codec, menu, fs);
      && (outcome.AccessDenied? || outcome.ErrorRedirect? || outcome.EditorPage? ==> after == fs)
      && (outcome.BackupDumpThrew? ==> after == AfterCreateDir(fs, BackupFolder(config)))
      && (after.menuFile != fs.menuFile ==> outcome.SavedRedirect?)
      && (outcome.AccessDenied? <==> !allowed)
      && (outcome.EditorPage? <==> allowed && !Posted(menus))
  {
  }

  /**
   * A successful save leaves in the menu file exactly the YAML dump of the
   * decoded payload, a dump the parser accepted.
   */
  lemma SavedFileIsDumpOfPayload(allowed: bool, menus: Option<string>, config: Config, codec: Codec, menu: Value, fs: FsState)
    requires MenuEditorSpec(allowed, menus, config, codec, menu, fs).0.SavedRedirect?
    ensures allowed && Posted(menus)
    ensures var after := MenuEditorSpec(allowed, menus, config, codec, menu, fs).1;
      && codec.jsonDecode(menus.value).Some?
      && codec.yamlDump(Indentation, codec.jsonDecode(menus.value).value, InlineLevel) == Some(after.menuFile)
      && codec.yamlParse(after.menuFile).Some?
  {
  }

  /**
   * A successful save writes the menu file once, as its last operation, after
   * every backup operation; a save writes it only when it succeeds.
   */
  lemma MenuFileWrittenOnceLast(allowed: bool, menus: Option<string>, config: Config, codec: Codec, menu: Value, fs: FsState)
    ensures var (outcome, after) := MenuEditorSpec(allowed, menus, config, codec, menu, fs);
      && |fs.trace| <= |after.trace|
      && after.trace[..|fs.trace|] == fs.trace
      && (outcome.SavedRedirect? <==> |after.trace| > |fs.trace| && after.trace[|after.trace| - 1].WriteMenuFile?)
      && forall i :: |fs.trace| <= i < |after.trace| - 1 ==> !after.trace[i].WriteMenuFile?
  {
  }

  /** With backups off (as by default), a save touches no folder and performs only the menu write. */
  lemma DisabledBackupsTouchNoFolder(allowed: bool, menus: Option<string>, config: Config, codec: Codec, menu: Value, fs: FsState)
    requires !BackupsEnabled(config)
    ensures var (outcome, after) := MenuEditorSpec(allowed, menus, config, codec, menu, fs);
      && after.folders == fs.folders
      && (after.trace == fs.trace || after.trace == fs.trace + [WriteMenuFile(after.menuFile)])
  {
  }

  /**
   * The default configuration declares `enabled`, which the controller never
   * reads: backups are off by default, and an `enabled` entry cannot turn them on.
   */
  lemma EnabledKeyIsIgnored(backups: map<string, Setting>, v: Setting)
    ensures !BackupsEnabled(DefaultConfig)
    ensures BackupsEnabled(Config(backups["enabled" := v])) == BackupsEnabled(Config(backups - {"enabled"}))
  {
  }

  /**
   * With backups on, a successful save puts the dump of the current menu into
   * the backup folder and prunes it as Rotate says; no other folder changes.
   */
  lemma SavedBackupRotates(allowed: bool, menus: Option<string>, config: Config, codec: Codec, menu: Value, fs: FsState)
    requires BackupsEnabled(config)
    requires MenuEditorSpec(allowed, menus, config, codec, menu, fs).0.SavedRedirect?
    ensures codec.yamlDump(Indentation, menu, InlineLevel).Some?
    ensures var after := MenuEditorSpec(allowed, menus, config, codec, menu, fs).1;
      var folder := BackupFolder(config);
      && ListingOf(after, folder) ==
         Rotate(ListingOf(fs, folder), codec.yamlDump(Indentation, menu, InlineLevel).value, Keep(config))
      && forall f :: f != folder ==> ListingOf(after, f) == ListingOf(fs, f)
  {
  }

  /**
   * One save deletes at most one entry, the first listed, and only when the
   * listing, new backup included, holds more entries than `keep` allows.
   */
  lemma RotateDeletesAtMostFirst(listing: seq<string>, snapshot: string, keep: Setting)
    ensures var r := Rotate(listing, snapshot, keep);
      && |listing| <= |r| <= |listing| + 1
      && r == (listing + [snapshot])[|listing| + 1 - |r|..]
      && (|r| == |listing| <==> LooseGreater(|listing| + 1, keep))
  {
  }

  /** The listing after one backup per snapshot, in order. */
  function RotateAll(listing: seq<string>, snapshots: seq<string>, keep: Setting): seq<string> {
    if snapshots == [] then listing
    else Rotate(RotateAll(listing, snapshots[..|snapshots| - 1], keep), snapshots[|snapshots| - 1], keep)
  }

  function Min(a: nat, b: nat): nat {
    if a < b then a else b
  }

  /**
   * Starting from an empty folder with an integer `keep` of k, after n
   * successful saves the folder holds the min(n, k) newest backups.
   */
  lemma {:induction false} RetentionKeepsNewest(snapshots: seq<string>, k: nat)
    ensures RotateAll([], snapshots, SInt(k)) == snapshots[|snapshots| - Min(|snapshots|, k)..]
  {
    if snapshots != [] {
      var n := |snapshots|;
      var prefix := snapshots[..n - 1];
      RetentionKeepsNewest(prefix, k);
      assert RotateAll([], prefix, SInt(k)) == prefix[n - 1 - Min(n - 1, k)..];
      assert prefix[n - 1 - Min(n - 1, k)..] + [snapshots[n - 1]] == snapshots[n - 1 - Min(n - 1, k)..];
    }
  }

  /**
   * A folder that already holds more than k entries never shrinks: each save
   * adds one backup and deletes at most one entry.
   */
  lemma {:induction false} OverfullFolderStaysOverfull(listing: seq<string>, snapshots: seq<string>, k: int)
    requires |listing| > k
    ensures |RotateAll(listing, snapshots, SInt(k))| == |listing|
  {
    if snapshots != [] {
      OverfullFolderStaysOverfull(listing, snapshots[..|snapshots| - 1], k);
    }
  }
}
