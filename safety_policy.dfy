/**
 * The GenXBot approval gate: a command is safe when, once surrounding whitespace is stripped,
 * it starts with one of seven test, lint and build prefixes. Edits, and commands that are not
 * safe, need a human approval.
 */
module SafetyPolicy {
  import opened Results
  import opened Text
  import opened RunSchemas

  const SafeCommandPrefixes: seq<string> := [
    "pytest",
    "python -m pytest",
    "ruff check",
    "ruff format",
    "npm test",
    "npm run lint",
    "npm run build"
  ]

  /** `is_safe_command`: some listed prefix starts the stripped command. */
  predicate IsSafeCommand(command: string) {
    exists i :: 0 <= i < |SafeCommandPrefixes| && StartsWith(Strip(command), SafeCommandPrefixes[i])
  }

  /** `action.command and is_safe_command(action.command)`: an absent or empty command is not safe. */
  predicate SafeCommandGiven(command: Option<string>) {
    command.Some? && command.value != "" && IsSafeCommand(command.value)
  }

  /** `requires_approval`: edits always, commands unless their command is safe, any other type always. */
  function RequiresApproval(a: ProposedAction): (b: bool)
    ensures a.actionType == EditType ==> b
    ensures a.actionType == CommandType ==> (b <==> a.command.None? || a.command.value == "" || !IsSafeCommand(a.command.value))
    ensures a.actionType != EditType && a.actionType != CommandType ==> b
    ensures !b ==> a.actionType == CommandType && a.command.Some? && IsSafeCommand(a.command.value)
  {
    if a.actionType == EditType then true
    else if a.actionType == CommandType then !SafeCommandGiven(a.command)
    else true
  }

  /** Whitespace around a command changes nothing about whether it is safe. */
  lemma SafeIgnoresPadding(w1: string, command: string, w2: string)
    requires AllSpace(w1) && AllSpace(w2)
    ensures IsSafeCommand(w1 + command + w2) <==> IsSafeCommand(command)
  {
    StripIgnoresPadding(w1, command, w2);
  }

  /** The command `create_run` proposes first. */
  const PytestQuiet: string := "pytest -q"

  lemma PytestStrips()
    ensures Strip(PytestQuiet) == PytestQuiet
  {
    assert TrimLeft(PytestQuiet) == PytestQuiet;
    assert TrimRight(PytestQuiet) == PytestQuiet;
  }

  lemma PytestListed()
    ensures StartsWith(PytestQuiet, SafeCommandPrefixes[0])
  {
    assert SafeCommandPrefixes[0] == "pytest";
    assert PytestQuiet[..6] == "pytest";
  }

  /** The command `create_run` proposes first is safe. */
  lemma PytestIsSafe()
    ensures IsSafeCommand(PytestQuiet)
  {
    PytestStrips();
    PytestListed();
  }

  /** The same command with any whitespace around it is still safe. */
  lemma PaddedPytestIsSafe(w1: string, w2: string)
    requires AllSpace(w1) && AllSpace(w2)
    ensures IsSafeCommand(w1 + PytestQuiet + w2)
  {
    PytestIsSafe();
    SafeIgnoresPadding(w1, PytestQuiet, w2);
  }

  /** A command that is on no list. */
  const Destructive: string := "rm -rf /"

  lemma DestructiveStrips()
    ensures Strip(Destructive) == Destructive
  {
    assert TrimLeft(Destructive) == Destructive;
    assert TrimRight(Destructive) == Destructive;
  }

  lemma DestructiveUnlisted()
    ensures forall i :: 0 <= i < |SafeCommandPrefixes| ==> !StartsWith(Destructive, SafeCommandPrefixes[i])
  {
    forall i | 0 <= i < |SafeCommandPrefixes|
      ensures !StartsWith(Destructive, SafeCommandPrefixes[i])
    {
      assert SafeCommandPrefixes[i][0] != 'r' || SafeCommandPrefixes[i][1] != 'm';
    }
  }

  /** A command outside the list is not safe. */
  lemma OthersAreUnsafe()
    ensures !IsSafeCommand(Destructive)
  {
    DestructiveStrips();
    DestructiveUnlisted();
  }

  /** The empty command is not safe: every listed prefix is non-empty. */
  lemma EmptyIsUnsafe()
    ensures !IsSafeCommand("")
  {
    assert Strip("") == "";
    forall i | 0 <= i < |SafeCommandPrefixes|
      ensures !StartsWith("", SafeCommandPrefixes[i])
    {
      assert SafeCommandPrefixes[i] != [];
    }
  }
}
