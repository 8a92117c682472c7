/**
 * The virtual keyboard of 6/6.py: keys bound to commands, an undo stack and a
 * redo stack of executed commands, and the list `text_output` that every
 * print command appends to.  The bindings are saved, as one string per key,
 * whenever a key is bound, and read back when a keyboard is created.
 *
 * A print command is a value (the keyboard makes a fresh one on every press,
 * over its own buffer); a media-player command is an object whose `launched`
 * flag is mutated, shared by the bindings and the stacks that hold it.
 */
module VirtualKeyboard {
  import opened Wrappers

  /** `MediaPlayerCommand`, 6/6.py:68-86. */
  class MediaPlayerCommand {
    var launched: bool

    constructor ()
      ensures !launched
    {
      launched := false;
    }

    /** `execute` launches the player. */
    method Execute()
      modifies this
      ensures launched
    {
      launched := true;
    }
  }

  /** The commands of 6/6.py:12-86. */
  datatype Command =
    | PrintCommand(ch: string)
    | VolumeUpCommand
    | VolumeDownCommand
    | MediaPlayer(player: MediaPlayerCommand)

  /** What a command is, without object identity: what the saved bindings record. */
  datatype Kind = PrintKind(ch: string) | VolumeUpKind | VolumeDownKind | MediaPlayerKind

  function KindOf(cmd: Command): Kind
  {
    match cmd
    case PrintCommand(c) => PrintKind(c)
    case VolumeUpCommand => VolumeUpKind
    case VolumeDownCommand => VolumeDownKind
    case MediaPlayer(_) => MediaPlayerKind
  }

  /** The objects whose fields executing `cmd` writes. */
  function Players(cmd: Command): set<object>
  {
    if cmd.MediaPlayer? then {cmd.player} else {}
  }

  // ---------------------------------------------------------------------------
  // The effect of a command on the shared buffer `text_output`
  // ---------------------------------------------------------------------------

  /** `execute`'s effect on the buffer: a print command appends its char, the others print only. */
  function ExecuteOn(cmd: Command, buffer: seq<string>): (r: seq<string>)
    ensures buffer <= r && |r| == |buffer| + (if cmd.PrintCommand? then 1 else 0)
  {
    if cmd.PrintCommand? then buffer + [cmd.ch] else buffer
  }

  /** `undo`'s effect on the buffer: a print command pops the last element, if there is one. */
  function UndoOn(cmd: Command, buffer: seq<string>): (r: seq<string>)
    ensures r <= buffer && |buffer| - 1 <= |r|
  {
    if cmd.PrintCommand? && buffer != [] then buffer[..|buffer| - 1] else buffer
  }

  /** Undoing a command right after executing it restores the buffer. */
  lemma UndoAfterExecute(cmd: Command, buffer: seq<string>)
    ensures UndoOn(cmd, ExecuteOn(cmd, buffer)) == buffer
  {
    if cmd.PrintCommand? {
      assert (buffer + [cmd.ch])[..|buffer|] == buffer;
    }
  }

  /** A print command's undo removes exactly the last element of a non-empty buffer; on an empty one it does nothing. */
  lemma PrintUndo(c: string, buffer: seq<string>)
    ensures buffer == [] ==> UndoOn(PrintCommand(c), buffer) == []
    ensures buffer != [] ==> UndoOn(PrintCommand(c), buffer) + [buffer[|buffer| - 1]] == buffer
  {
  }

  /** The chars of the print commands in `stack`, bottom first; `PrintedPush` and `Keyboard.Valid` are what it is for. */
  function Printed(stack: seq<Command>): (r: seq<string>)
    ensures |r| <= |stack|
  {
    if stack == [] then [] else (if stack[0].PrintCommand? then [stack[0].ch] else []) + Printed(stack[1..])
  }

  /** Pushing a command adds to the printed chars exactly what executing it adds to a buffer. */
  lemma {:induction false} PrintedPush(stack: seq<Command>, cmd: Command)
    ensures Printed(stack + [cmd]) == ExecuteOn(cmd, Printed(stack))
  {
    if stack != [] {
      var head := if stack[0].PrintCommand? then [stack[0].ch] else [];
      assert (stack + [cmd])[0] == stack[0] && (stack + [cmd])[1..] == stack[1..] + [cmd];
      assert Printed(stack + [cmd]) == head + Printed(stack[1..] + [cmd]);
      PrintedPush(stack[1..], cmd);
      assert Printed(stack) == head + Printed(stack[1..]);
    } else {
      assert stack + [cmd] == [cmd];
    }
  }

  // ---------------------------------------------------------------------------
  // The encoding of bindings written by `_save_state` and read by `_load_state`
  // ---------------------------------------------------------------------------

  const PRINT_PREFIX: string := "PrintCommand:"

  /** `f"PrintCommand:{cmd.ch}"` for a print command, the class name otherwise. */
  function Encode(k: Kind): string
  {
    match k
    case PrintKind(c) => PRINT_PREFIX + c
    case VolumeUpKind => "VolumeUpCommand"
    case VolumeDownKind => "VolumeDownCommand"
    case MediaPlayerKind => "MediaPlayerCommand"
  }

  /** The part of `s` before its first ':' — what `split(":")` yields after the prefix's own colon. */
  function UpToColon(s: string): (r: string)
  {
    if s == [] || s[0] == ':' then [] else [s[0]] + UpToColon(s[1..])
  }

  /** The chain of 6/6.py:175-183; an unknown name yields nothing, so its binding is dropped. */
  function Decode(val: string): Option<Kind>
  {
    if |val| >= |PRINT_PREFIX| && val[..|PRINT_PREFIX|] == PRINT_PREFIX then Some(PrintKind(UpToColon(val[|PRINT_PREFIX|..])))
    else if val == "VolumeUpCommand" then Some(VolumeUpKind)
    else if val == "VolumeDownCommand" then Some(VolumeDownKind)
    else if val == "MediaPlayerCommand" then Some(MediaPlayerKind)
    else None
  }

  /** The saved representation of a bindings table, 6/6.py:163-169. */
  function SaveRepr(bindings: map<string, Command>): (saved: map<string, string>)
    ensures saved.Keys == bindings.Keys
  {
    map key | key in bindings :: Encode(KindOf(bindings[key]))
  }

  /** `UpToColon` keeps a prefix free of ':'; it is the whole string exactly when the string has no ':'. */
  lemma {:induction false} UpToColonFacts(s: string)
    ensures UpToColon(s) <= s && ':' !in UpToColon(s)
    ensures UpToColon(s) == s <==> ':' !in s
  {
    if s != [] && s[0] != ':' {
      UpToColonFacts(s[1..]);
      assert s == [s[0]] + s[1..];
    }
  }

  /** Every kind decodes from its encoding, provided a print char holds no ':'. */
  lemma RoundTrip(k: Kind)
    requires k.PrintKind? ==> ':' !in k.ch
    ensures Decode(Encode(k)) == Some(k)
  {
    if k.PrintKind? {
      assert Encode(k)[..|PRINT_PREFIX|] == PRINT_PREFIX;
      assert Encode(k)[|PRINT_PREFIX|..] == k.ch;
      UpToColonFacts(k.ch);
    }
  }

  /** A print char with a ':' does not survive: the char ":" comes back as the empty string. */
  lemma ColonIsLost()
    ensures Decode(Encode(PrintKind(":"))) == Some(PrintKind(""))
  {
    assert Encode(PrintKind(":"))[..|PRINT_PREFIX|] == PRINT_PREFIX;
    assert Encode(PrintKind(":"))[|PRINT_PREFIX|..] == ":";
  }

  /** A string decodes exactly when it carries the print prefix or is one of the three class names. */
  lemma DecodeDefined(val: string)
    ensures Decode(val).Some? <==>
      (PRINT_PREFIX <= val || val in {"VolumeUpCommand", "VolumeDownCommand", "MediaPlayerCommand"})
  {
  }

  /** Saving and loading keeps every binding's kind, when no print char holds a ':'. */
  lemma SaveLoadRoundTrip(bindings: map<string, Command>, key: string)
    requires key in bindings
    requires bindings[key].PrintCommand? ==> ':' !in bindings[key].ch
    ensures key in SaveRepr(bindings) && Decode(SaveRepr(bindings)[key]) == Some(KindOf(bindings[key]))
  {
    RoundTrip(KindOf(bindings[key]));
  }

  // ---------------------------------------------------------------------------
  // The keyboard, 6/6.py:119-183
  // ---------------------------------------------------------------------------

  /** Media keys bound to different keys have players of their own. */
  ghost predicate DistinctPlayers(bindings: map<string, Command>)
  {
    forall k, k' :: k in bindings && k' in bindings && k != k' && bindings[k].MediaPlayer? && bindings[k'].MediaPlayer? ==>
      bindings[k].player != bindings[k'].player
  }

  /** Binding a key keeps the players distinct when a new player is not already bound to another key. */
  lemma PutDistinct(bindings: map<string, Command>, key: string, cmd: Command)
    requires DistinctPlayers(bindings)
    requires cmd.MediaPlayer? ==> forall k :: k in bindings && k != key && bindings[k].MediaPlayer? ==> bindings[k].player != cmd.player
    ensures DistinctPlayers(bindings[key := cmd])
  {
  }

  class Keyboard {
    var bindings: map<string, Command>
    var undoStack: seq<Command>
    var redoStack: seq<Command>
    var textOutput: seq<string>  // `text_output`, shared with every print command
    var saved: map<string, string>  // the bindings as the saver last wrote them

    /** The buffer holds exactly the chars of the print commands on the undo stack. */
    ghost predicate Valid()
      reads this
    {
      textOutput == Printed(undoStack)
    }

    /**
     * `__init__` with `_load_state`: `stored` is the saved table the saver
     * loads (empty when there is no file).  Every entry that decodes becomes a
     * binding of that kind; the others are dropped.  Each media key gets a
     * player of its own.
     */
    constructor (stored: map<string, string>)
      ensures Valid() && undoStack == [] && redoStack == [] && textOutput == [] && saved == stored
      ensures bindings.Keys == set k | k in stored && Decode(stored[k]).Some?
      ensures forall k :: k in bindings ==> Decode(stored[k]) == Some(KindOf(bindings[k]))
      ensures forall k :: k in bindings && bindings[k].MediaPlayer? ==> fresh(bindings[k].player) && !bindings[k].player.launched
      ensures DistinctPlayers(bindings)
    {
      bindings, undoStack, redoStack, textOutput, saved := map[], [], [], [], stored;
      new;
      var keys := stored.Keys;
      while keys != {}
        invariant keys <= stored.Keys
        invariant undoStack == [] && redoStack == [] && textOutput == [] && saved == stored
        invariant bindings.Keys == set k | k in stored && k !in keys && Decode(stored[k]).Some?
        invariant forall k :: k in bindings ==> Decode(stored[k]) == Some(KindOf(bindings[k]))
        invariant forall k :: k in bindings && bindings[k].MediaPlayer? ==> fresh(bindings[k].player) && !bindings[k].player.launched
        invariant DistinctPlayers(bindings)
        decreases keys
      {
        var key :| key in keys;
        match Decode(stored[key]) {
          case None =>
          case Some(PrintKind(c)) =>
            PutDistinct(bindings, key, PrintCommand(c));
            bindings := bindings[key := PrintCommand(c)];
          case Some(VolumeUpKind) =>
            PutDistinct(bindings, key, VolumeUpCommand);
            bindings := bindings[key := VolumeUpCommand];
          case Some(VolumeDownKind) =>
            PutDistinct(bindings, key, VolumeDownCommand);
            bindings := bindings[key := VolumeDownCommand];
          case Some(MediaPlayerKind) =>
            var player := new MediaPlayerCommand();
            PutDistinct(bindings, key, MediaPlayer(player));
            bindings := bindings[key := MediaPlayer(player)];
        }
        keys := keys - {key};
      }
    }

    /** `bind`: sets or overwrites the entry for `key` only, then saves the encoded table. */
    method Bind(key: string, cmd: Command)
      requires Valid()
      modifies this
      ensures Valid()
      ensures bindings == old(bindings)[key := cmd] && saved == SaveRepr(bindings)
      ensures undoStack == old(undoStack) && redoStack == old(redoStack) && textOutput == old(textOutput)
    {
      bindings := bindings[key := cmd];
      saved := SaveRepr(bindings);
    }

    /**
     * `press`: an unbound key changes nothing; a bound one is executed (a print
     * command afresh over the keyboard's buffer), pushed on the undo stack, and
     * the redo stack is emptied.
     */
    method Press(key: string)
      requires Valid()
      modifies this, if key in bindings then Players(bindings[key]) else {}
      ensures Valid()
      ensures bindings == old(bindings) && saved == old(saved)
      ensures key !in bindings ==>
        undoStack == old(undoStack) && redoStack == old(redoStack) && textOutput == old(textOutput)
      ensures key in bindings ==>
        && undoStack == old(undoStack) + [bindings[key]]
        && redoStack == []
        && textOutput == ExecuteOn(bindings[key], old(textOutput))
        && (bindings[key].MediaPlayer? ==> bindings[key].player.launched)
    {
      if key !in bindings {
        return;
      }
      // The source re-creates a print command over this keyboard's buffer; with
      // the buffer a field of the keyboard that copy is the bound value itself.
      var cmd := bindings[key];
      Execute(cmd);
      PrintedPush(undoStack, cmd);
      undoStack := undoStack + [cmd];
      redoStack := [];
    }

    /** `cmd.execute()`: its effect on the buffer, and on the player it launches. */
    method Execute(cmd: Command)
      modifies this`textOutput, Players(cmd)
      ensures textOutput == ExecuteOn(cmd, old(textOutput))
      ensures cmd.MediaPlayer? ==> cmd.player.launched
    {
      match cmd {
        case PrintCommand(c) => textOutput := textOutput + [c];
        case VolumeUpCommand =>
        case VolumeDownCommand =>
        case MediaPlayer(player) => player.Execute();
      }
    }

    /** `undo`: a no-op on an empty undo stack; otherwise the top command moves to the redo stack and is undone. */
    method Undo()
      requires Valid()
      modifies this
      ensures Valid()
      ensures bindings == old(bindings) && saved == old(saved)
      ensures old(undoStack) == [] ==>
        undoStack == [] && redoStack == old(redoStack) && textOutput == old(textOutput)
      ensures old(undoStack) != [] ==>
        var cmd := old(undoStack)[|old(undoStack)| - 1];
        && undoStack == old(undoStack)[..|old(undoStack)| - 1]
        && redoStack == old(redoStack) + [cmd]
        && textOutput == UndoOn(cmd, old(textOutput))
    {
      if undoStack == [] {
        return;
      }
      var cmd := undoStack[|undoStack| - 1];
      undoStack := undoStack[..|undoStack| - 1];
      PrintedPush(undoStack, cmd);
      assert old(undoStack) == undoStack + [cmd];
      UndoAfterExecute(cmd, Printed(undoStack));
      if cmd.PrintCommand? && textOutput != [] {
        textOutput := textOutput[..|textOutput| - 1];
      }
      redoStack := redoStack + [cmd];
    }

    /** `redo`: the mirror image of `undo`; the top of the redo stack is executed again and pushed on the undo stack. */
    method Redo()
      requires Valid()
      modifies this, if redoStack != [] then Players(redoStack[|redoStack| - 1]) else {}
      ensures Valid()
      ensures bindings == old(bindings) && saved == old(saved)
      ensures old(redoStack) == [] ==>
        redoStack == [] && undoStack == old(undoStack) && textOutput == old(textOutput)
      ensures old(redoStack) != [] ==>
        var cmd := old(redoStack)[|old(redoStack)| - 1];
        && redoStack == old(redoStack)[..|old(redoStack)| - 1]
        && undoStack == old(undoStack) + [cmd]
        && textOutput == ExecuteOn(cmd, old(textOutput))
        && (cmd.MediaPlayer? ==> cmd.player.launched)
    {
      if redoStack == [] {
        return;
      }
      var cmd := redoStack[|redoStack| - 1];
      redoStack := redoStack[..|redoStack| - 1];
      Execute(cmd);
      PrintedPush(undoStack, cmd);
      undoStack := undoStack + [cmd];
    }
  }

  /** Undo followed by redo puts the stacks and the buffer back as they were. */
  method UndoThenRedo(kb: Keyboard)
    requires kb.Valid() && kb.undoStack != []
    modifies kb, Players(kb.undoStack[|kb.undoStack| - 1])
    ensures kb.Valid()
    ensures kb.undoStack == old(kb.undoStack) && kb.redoStack == old(kb.redoStack) && kb.textOutput == old(kb.textOutput)
  {
    kb.Undo();
    kb.Redo();
  }

  /** The bindings `main` makes, 6/6.py:192-198 (the last one with the given player). */
  method BindMainKeys(kb: Keyboard, player: MediaPlayerCommand)
    requires kb.Valid()
    modifies kb
    ensures kb.Valid()
    ensures kb.undoStack == old(kb.undoStack) && kb.redoStack == old(kb.redoStack) && kb.textOutput == old(kb.textOutput)
    ensures kb.bindings == old(kb.bindings)["a" := PrintCommand("a")]["b" := PrintCommand("b")]
      ["c" := PrintCommand("c")]["d" := PrintCommand("d")]["ctrl++" := VolumeUpCommand]
      ["ctrl+-" := VolumeDownCommand]["ctrl+p" := MediaPlayer(player)]
    ensures kb.saved == SaveRepr(kb.bindings)
  {
    kb.Bind("a", PrintCommand("a"));
    kb.Bind("b", PrintCommand("b"));
    kb.Bind("c", PrintCommand("c"));
    kb.Bind("d", PrintCommand("d"));
    kb.Bind("ctrl++", VolumeUpCommand);
    kb.Bind("ctrl+-", VolumeDownCommand);
    kb.Bind("ctrl+p", MediaPlayer(player));
  }

  /** Typing "a", "ctrl++", "b", then undo twice and redo twice. */
  method TypingSession(kb: Keyboard)
    requires kb.Valid()
    requires "a" in kb.bindings && kb.bindings["a"] == PrintCommand("a")
    requires "b" in kb.bindings && kb.bindings["b"] == PrintCommand("b")
    requires "ctrl++" in kb.bindings && kb.bindings["ctrl++"] == VolumeUpCommand
    modifies kb
    ensures kb.Valid()
    ensures kb.textOutput == old(kb.textOutput) + ["a", "b"] && kb.redoStack == []
    ensures kb.bindings == old(kb.bindings) && kb.saved == old(kb.saved)
  {
    kb.Press("a");
    kb.Press("ctrl++");
    kb.Press("b");
    assert kb.textOutput == old(kb.textOutput) + ["a", "b"];
    kb.Undo();
    assert kb.textOutput == old(kb.textOutput) + ["a"];
    kb.Undo();
    assert kb.textOutput == old(kb.textOutput) + ["a"];
    kb.Redo();
    kb.Redo();
  }

  /** A session of `main`: bind the keys, type, and launch the media player. */
  method KeyboardScenario(stored: map<string, string>)
  {
    var kb := new Keyboard(stored);
    var player := new MediaPlayerCommand();
    BindMainKeys(kb, player);
    TypingSession(kb);
    assert kb.bindings["ctrl+p"] == MediaPlayer(player);
    kb.Press("ctrl+p");
    assert player.launched;
    kb.Undo();
    assert player.launched;
  }
}
