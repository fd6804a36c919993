/**
 * src/NoteSetter.jsx: the list of pitches a note selector offers, and the
 * selector that writes its chosen pitch into one slot of the tone list it
 * shares with the App component.
 */
module NoteSelect {

  /** The twelve pitch classes, in the order the selector lists them. */
  const Notes: seq<string> := ["Ab", "A", "Bb", "B", "C", "C#", "D", "Eb", "E", "F", "F#", "G"]

  /** The octaves offered, lowest first (`ocataves` in the source). */
  const Octaves: seq<nat> := [1, 2, 3, 4, 5, 6, 7, 8]

  /** A react-select option; `caption` is its `label` field. */
  datatype SelectOption = SelectOption(value: string, caption: string)

  /** The decimal digit of a one-digit octave number, as a template literal renders it. */
  function OctaveDigit(octave: nat): (s: string)
    requires octave <= 9
    ensures |s| == 1 && '0' <= s[0] <= '9'
    ensures s[0] as int - '0' as int == octave
  {
    [('0' as int + octave) as char]
  }

  /** `notes.map((note) => `${note}${octave}`)`: the pitches of one octave. */
  function OctaveRow(octave: nat): seq<string>
    requires octave <= 9
  {
    seq(|Notes|, i requires 0 <= i < |Notes| => Notes[i] + OctaveDigit(octave))
  }

  /** `ocataves.map(...)`: one row per octave, lowest octave first. */
  function OctaveRows(): (rows: seq<seq<string>>)
    ensures |rows| == |Octaves|
    ensures forall i :: 0 <= i < |Octaves| ==> rows[i] == OctaveRow(i + 1)
  {
    seq(|Octaves|, i requires 0 <= i < |Octaves| => OctaveRow(Octaves[i]))
  }

  /** Array.prototype.reverse, as a value. */
  function Reverse<T>(s: seq<T>): (r: seq<T>)
    ensures |r| == |s|
    ensures forall i :: 0 <= i < |s| ==> r[i] == s[|s| - 1 - i]
  {
    if s == [] then [] else Reverse(s[1..]) + [s[0]]
  }

  /** `rows.reduce((prev, curr) => curr.concat(prev), acc)`. */
  function ReduceConcat(rows: seq<seq<string>>, acc: seq<string>): seq<string>
    decreases |rows|
  {
    if rows == [] then acc else ReduceConcat(rows[1..], rows[0] + acc)
  }

  /** The rows joined end to end, first row first. */
  function Flatten(rows: seq<seq<string>>): seq<string>
    decreases |rows|
  {
    if rows == [] then [] else rows[0] + Flatten(rows[1..])
  }

  /** `selectOptions`: every pitch as an option whose value and label are the pitch. */
  function SelectOptions(): (options: seq<SelectOption>)
    ensures forall i :: 0 <= i < |options| ==> options[i].value == options[i].caption
  {
    var names := ReduceConcat(Reverse(OctaveRows()), []);
    seq(|names|, i requires 0 <= i < |names| => SelectOption(names[i], names[i]))
  }

  /** The name of the option at position `i`: pitch class `i % 12` in octave `i / 12 + 1`. */
  function OptionName(i: nat): string
    requires i < |Notes| * |Octaves|
  {
    Notes[i % 12] + OctaveDigit(i / 12 + 1)
  }

  /** Reducing with `curr.concat(prev)` processes the rows back to front. */
  lemma {:induction false} ReduceAppend(a: seq<seq<string>>, b: seq<seq<string>>, acc: seq<string>)
    ensures ReduceConcat(a + b, acc) == ReduceConcat(b, ReduceConcat(a, acc))
    decreases |a|
  {
    if a != [] {
      assert (a + b)[0] == a[0] && (a + b)[1..] == a[1..] + b;
      ReduceAppend(a[1..], b, a[0] + acc);
    } else {
      assert a + b == b;
    }
  }

  /** Reversing the rows and then reducing joins them in their original order. */
  lemma {:induction false} ReduceReversed(rows: seq<seq<string>>, acc: seq<string>)
    ensures ReduceConcat(Reverse(rows), acc) == Flatten(rows) + acc
    decreases |rows|
  {
    if rows != [] {
      ReduceReversed(rows[1..], acc);
      ReduceAppend(Reverse(rows[1..]), [rows[0]], acc);
      assert ReduceConcat([rows[0]], Flatten(rows[1..]) + acc) == rows[0] + (Flatten(rows[1..]) + acc);
    }
  }

  /** Joining rows of twelve: position `i` is entry `i % 12` of row `i / 12`. */
  lemma {:induction false} FlattenTwelves(rows: seq<seq<string>>)
    requires forall r :: 0 <= r < |rows| ==> |rows[r]| == 12
    ensures |Flatten(rows)| == 12 * |rows|
    ensures forall i :: 0 <= i < 12 * |rows| ==> Flatten(rows)[i] == rows[i / 12][i % 12]
    decreases |rows|
  {
    if rows != [] {
      FlattenTwelves(rows[1..]);
      forall i | 0 <= i < 12 * |rows|
        ensures Flatten(rows)[i] == rows[i / 12][i % 12]
      {
        if i >= 12 {
          assert Flatten(rows)[i] == Flatten(rows[1..])[i - 12];
          assert (i - 12) / 12 == i / 12 - 1 && (i - 12) % 12 == i % 12;
        }
      }
    }
  }

  /**
   * The selector offers 12 x 8 = 96 options, ordered by octave 1..8 and within
   * an octave in the order of `Notes`; each option's value equals its label.
   */
  lemma SelectOptionsListing()
    ensures |SelectOptions()| == 96
    ensures forall i :: 0 <= i < 96 ==> SelectOptions()[i] == SelectOption(OptionName(i), OptionName(i))
  {
    var rows := OctaveRows();
    ReduceReversed(rows, []);
    assert ReduceConcat(Reverse(rows), []) == Flatten(rows);
    FlattenTwelves(rows);
  }

  lemma OptionNameShape(i: nat)
    requires i < 96
    ensures var v := OptionName(i);
      && |v| >= 2
      && v[..|v| - 1] in Notes
      && '1' <= v[|v| - 1] <= '8'
  {
    var v := OptionName(i);
    var note := Notes[i % 12];
    assert v[..|v| - 1] == note;
  }

  /** Every option is a pitch class from `Notes` followed by one octave digit 1..8. */
  lemma OptionShape(i: nat)
    requires i < 96
    ensures var v := SelectOptions()[i].value;
      && |v| >= 2
      && v[..|v| - 1] in Notes
      && '1' <= v[|v| - 1] <= '8'
  {
    SelectOptionsListing();
    OptionNameShape(i);
  }

  lemma NotesDistinct(a: nat, b: nat)
    requires a < b < |Notes|
    ensures Notes[a] != Notes[b]
  {
  }

  /** No pitch is offered twice. */
  lemma OptionsDistinct(i: nat, j: nat)
    requires i < j < 96
    ensures SelectOptions()[i].value != SelectOptions()[j].value
  {
    SelectOptionsListing();
    var vi, vj := OptionName(i), OptionName(j);
    OptionNameShape(i);
    OptionNameShape(j);
    if i / 12 == j / 12 {
      assert i % 12 < j % 12;
      NotesDistinct(i % 12, j % 12);
      assert vi[..|vi| - 1] == Notes[i % 12] && vj[..|vj| - 1] == Notes[j % 12];
    } else {
      assert vi[|vi| - 1] != vj[|vj| - 1];
    }
  }

  /**
   * The `NoteSetter` component: the slot it edits, the tone list it shares
   * with the App component (`ref.current`), and its selected note.
   */
  class NoteSetter {
    const noteIndex: nat
    const toneList: array<string>
    var selectedNote: string

    ghost predicate Valid()
      reads this
    {
      noteIndex < toneList.Length
    }

    /** `useState(ref.current[noteIndex])`: the selection starts as the slot's current note. */
    constructor(noteIndex: nat, toneList: array<string>)
      requires noteIndex < toneList.Length
      ensures Valid()
      ensures this.noteIndex == noteIndex && this.toneList == toneList
      ensures selectedNote == toneList[noteIndex]
    {
      this.noteIndex := noteIndex;
      this.toneList := toneList;
      selectedNote := toneList[noteIndex];
    }

    /** The select's `onChange`: the chosen option's value becomes the selection. */
    method Choose(option: SelectOption)
      requires Valid()
      modifies this
      ensures Valid()
      ensures selectedNote == option.value
    {
      selectedNote := option.value;
    }

    /**
     * The effect: the selection is written into slot `noteIndex` of the
     * shared tone list and no other slot changes. Run right after
     * construction, it leaves the list as it was.
     */
    method Commit()
      requires Valid()
      modifies toneList
      ensures Valid()
      ensures toneList[..] == old(toneList[..])[noteIndex := selectedNote]
      ensures forall j :: 0 <= j < toneList.Length && j != noteIndex ==> toneList[j] == old(toneList[j])
      ensures old(toneList[noteIndex]) == selectedNote ==> toneList[..] == old(toneList[..])
    {
      toneList[noteIndex] := selectedNote;
    }
  }
}
