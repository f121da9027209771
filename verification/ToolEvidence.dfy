/** Which files a tool call is taken to have changed. */
module ToolEvidence {
  import opened Text
  import opened Wrappers

  /** The string-valued fields of a tool call's argument object. */
  type Arguments = map<string, string>

  /** The first of the keys that is present decides, even when its value is blank. */
  function FirstStringField(input: Arguments, keys: seq<string>): (r: Option<string>)
    ensures r.Some? ==> r.value != "" && Trimmed(r.value)
  {
    if keys == [] then None
    else if keys[0] in input then
      TrimIsTrimmed(input[keys[0]]);
      if Trim(input[keys[0]]) != "" then Some(Trim(input[keys[0]])) else None
    else FirstStringField(input, keys[1..])
  }

  /** A key decides when it is the first of them that is present, and names what is left of its value without
      the margin. */
  lemma {:induction false} FirstFieldIff(input: Arguments, keys: seq<string>, value: string)
    ensures FirstStringField(input, keys) == Some(value) <==>
            value != "" && exists i :: 0 <= i < |keys| && Decides(input, keys, i) && Trim(input[keys[i]]) == value
  {
    hide Trim;
    if keys != [] {
      if keys[0] in input {
        assert Decides(input, keys, 0);
      } else {
        var rest := keys[1..];
        FirstFieldIff(input, rest, value);
        forall i | 0 <= i < |rest| ensures Decides(input, rest, i) <==> Decides(input, keys, i + 1) {
          assert forall j :: 0 <= j < i ==> keys[j + 1] == rest[j];
          assert forall j :: 0 < j < i + 1 ==> keys[j] == rest[j - 1];
        }
        if i :| 0 <= i < |rest| && Decides(input, rest, i) && Trim(input[rest[i]]) == value {
          assert Decides(input, keys, i + 1) && keys[i + 1] == rest[i];
        }
        if i :| 0 <= i < |keys| && Decides(input, keys, i) && Trim(input[keys[i]]) == value {
          assert i > 0 && Decides(input, rest, i - 1) && rest[i - 1] == keys[i];
        }
      }
    }
  }

  ghost predicate Decides(input: Arguments, keys: seq<string>, i: nat)
    requires i < |keys|
  {
    keys[i] in input && forall j :: 0 <= j < i ==> keys[j] !in input
  }

  function Paths(field: Option<string>): set<string> {
    if field.Some? then {field.value} else {}
  }

  const RENAME_KEYS := ["old_path", "from", "source_path", "new_path", "to", "target_path"]

  /** The values of the fields a renaming may carry. */
  function RenamedPaths(input: Arguments, keys: seq<string>): set<string> {
    if keys == [] then {}
    else RenamedPaths(input, keys[..|keys| - 1]) + Paths(FirstStringField(input, [keys[|keys| - 1]]))
  }

  function ChangedFiles(name: string, input: Arguments): set<string> {
    if name in ["write_file", "apply_patch", "edit_file", "git_add"] then
      Paths(FirstStringField(input, ["path", "file_path", "file", "filename"]))
    else if name == "rename_file" then RenamedPaths(input, RENAME_KEYS)
    else {}
  }

  /** Every renaming field is looked at on its own: none hides another. */
  lemma {:induction false} RenamedPathsAre(input: Arguments, keys: seq<string>, path: string)
    ensures path in RenamedPaths(input, keys) <==>
            exists i :: 0 <= i < |keys| && FirstStringField(input, [keys[i]]) == Some(path)
    decreases |keys|
  {
    hide FirstStringField;
    if keys != [] {
      RenamedPathsAre(input, keys[..|keys| - 1], path);
      assert forall i :: 0 <= i < |keys| - 1 ==> keys[..|keys| - 1][i] == keys[i];
    }
  }

  /** The tools that change files, and the fields that name them. */
  lemma ChangedFilesIff(name: string, input: Arguments, path: string)
    ensures path in ChangedFiles(name, input) <==>
            || (name in {"write_file", "apply_patch", "edit_file", "git_add"} &&
                FirstStringField(input, ["path", "file_path", "file", "filename"]) == Some(path))
            || (name == "rename_file" &&
                exists key :: key in {"old_path", "new_path", "from", "to", "source_path", "target_path"} &&
                              FirstStringField(input, [key]) == Some(path))
  {
    hide FirstStringField, RenamedPaths;
    if name == "rename_file" {
      RenamedPathsAre(input, RENAME_KEYS, path);
      var keys := RENAME_KEYS;
      assert keys[0] == "old_path" && keys[1] == "from" && keys[2] == "source_path";
      assert keys[3] == "new_path" && keys[4] == "to" && keys[5] == "target_path";
      if i :| 0 <= i < |keys| && FirstStringField(input, [keys[i]]) == Some(path) {
        assert keys[i] in {"old_path", "new_path", "from", "to", "source_path", "target_path"};
      }
      if key :| key in {"old_path", "new_path", "from", "to", "source_path", "target_path"} &&
                FirstStringField(input, [key]) == Some(path)
      {
        assert key in keys;
        var i :| 0 <= i < |keys| && keys[i] == key;
      }
    }
  }

  /** `note_changed_files_from_tool_call`: one insertion per field that names a path. */
  method NoteChangedFiles(changedFiles: set<string>, name: string, input: Arguments) returns (r: set<string>)
    ensures r == changedFiles + ChangedFiles(name, input)
  {
    hide FirstStringField, RenamedPaths;
    r := changedFiles;
    if name in ["write_file", "apply_patch", "edit_file", "git_add"] {
      var path := FirstStringField(input, ["path", "file_path", "file", "filename"]);
      if path.Some? {
        r := r + {path.value};
      }
    } else if name == "rename_file" {
      r := NoteRenamed(changedFiles, input);
    }
  }

  method NoteRenamed(changedFiles: set<string>, input: Arguments) returns (r: set<string>)
    ensures r == changedFiles + RenamedPaths(input, RENAME_KEYS)
  {
    hide FirstStringField;
    r := changedFiles;
    for i := 0 to |RENAME_KEYS|
      invariant r == changedFiles + RenamedPaths(input, RENAME_KEYS[..i])
    {
      assert RENAME_KEYS[..i + 1][..i] == RENAME_KEYS[..i];
      var path := FirstStringField(input, [RENAME_KEYS[i]]);
      if path.Some? {
        r := r + {path.value};
      }
    }
    assert RENAME_KEYS[..|RENAME_KEYS|] == RENAME_KEYS;
  }
}
