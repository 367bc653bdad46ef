/**
 * The masked password prompt: the buffer Console.ReadKey keystrokes leave
 * behind. Enter ends the prompt, Backspace removes the last character when
 * there is one, any other key appends its character.
 */
module PasswordPrompt {
  import opened Configuration

  /** The buffer after editing `buffer` with `keys`; the keys after the first Enter are never read. */
  function Edit(buffer: string, keys: seq<Key>): string
    decreases |keys|
  {
    if keys == [] then buffer
    else match keys[0]
      case Enter => buffer
      case Backspace => Edit(if |buffer| > 0 then buffer[..|buffer| - 1] else buffer, keys[1..])
      case Typed(c) => Edit(buffer + [c], keys[1..])
  }

  /** What AskCredential returns for a whole key sequence. */
  function TypedPassword(keys: seq<Key>): string {
    Edit("", keys)
  }

  /** The characters of the key sequence, for sequences without editing keys. */
  function Characters(keys: seq<Key>): string
    requires forall k :: 0 <= k < |keys| ==> keys[k].Typed?
  {
    if keys == [] then "" else [keys[0].c] + Characters(keys[1..])
  }

  /** Without Enter or Backspace, the buffer is exactly what was typed. */
  lemma {:induction false} PlainTyping(buffer: string, keys: seq<Key>)
    requires forall k :: 0 <= k < |keys| ==> keys[k].Typed?
    ensures Edit(buffer, keys) == buffer + Characters(keys)
    decreases |keys|
  {
    if keys != [] {
      PlainTyping(buffer + [keys[0].c], keys[1..]);
    }
  }

  /** The keys after the first Enter are ignored. */
  lemma {:induction false} EnterEndsPrompt(buffer: string, before: seq<Key>, after: seq<Key>)
    requires Enter !in before
    ensures Edit(buffer, before + [Enter] + after) == Edit(buffer, before)
    decreases |before|
  {
    if before == [] {
      assert (before + [Enter] + after)[0] == Enter;
    } else {
      assert (before + [Enter] + after)[1..] == before[1..] + [Enter] + after;
      var next := match before[0]
        case Backspace => if |buffer| > 0 then buffer[..|buffer| - 1] else buffer
        case Typed(c) => buffer + [c]
        case Enter => buffer;
      EnterEndsPrompt(next, before[1..], after);
    }
  }

  /** Typing a character and erasing it leaves the buffer as it was. */
  lemma BackspaceUndoesTyping(buffer: string, c: char, keys: seq<Key>)
    ensures Edit(buffer, [Typed(c), Backspace] + keys) == Edit(buffer, keys)
  {
    var ks := [Typed(c), Backspace] + keys;
    assert ks[1..] == [Backspace] + keys;
    assert ([Backspace] + keys)[1..] == keys;
    assert (buffer + [c])[..|buffer|] == buffer;
  }

  /** Backspace on an empty buffer changes nothing. */
  lemma BackspaceOnEmpty(keys: seq<Key>)
    ensures Edit("", [Backspace] + keys) == Edit("", keys)
  {
    assert ([Backspace] + keys)[1..] == keys;
  }

  /** The buffer never grows by more than one character per key, and every character in it was typed or was there before. */
  lemma {:induction false} EditBounds(buffer: string, keys: seq<Key>)
    ensures |Edit(buffer, keys)| <= |buffer| + |keys|
    ensures forall ch :: ch in Edit(buffer, keys) ==> ch in buffer || Typed(ch) in keys
    decreases |keys|
  {
    if keys != [] {
      match keys[0]
      case Enter =>
      case Backspace =>
        var b := if |buffer| > 0 then buffer[..|buffer| - 1] else buffer;
        EditBounds(b, keys[1..]);
        assert forall ch :: ch in b ==> ch in buffer;
        assert forall ch :: Typed(ch) in keys[1..] ==> Typed(ch) in keys;
      case Typed(c) =>
        EditBounds(buffer + [c], keys[1..]);
        assert forall ch :: Typed(ch) in keys[1..] ==> Typed(ch) in keys;
    }
  }
}
