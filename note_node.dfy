/**
 * The sticky note: its text, its colour from a fixed palette chosen by click or arrow
 * keys on the colour buttons, and the switch between showing and editing the text.
 */
module NoteNode {
  import opened Wrappers
  import opened JsStrings

  const Palette: seq<string> := ["yellow", "blue", "green", "pink", "purple"]

  const DefaultNote := "Write your note here..."
  const DefaultColor := "yellow"

  /**
   * The palette index an arrow key on the button of index `i` selects: one step right or
   * left around the palette.
   */
  function ArrowIndex(right: bool, i: nat): (r: nat)
    requires i < |Palette|
    ensures r < |Palette|
    ensures right ==> (r == i + 1 || (i == |Palette| - 1 && r == 0))
    ensures !right ==> (r + 1 == i || (i == 0 && r == |Palette| - 1))
  {
    if right then (i + 1) % |Palette| else (i - 1 + |Palette|) % |Palette|
  }

  /** A step left from the button a step right selected is back where it started. */
  lemma LeftUndoesRight(i: nat)
    requires i < |Palette|
    ensures ArrowIndex(false, ArrowIndex(true, i)) == i
  {
  }

  lemma RightUndoesLeft(i: nat)
    requires i < |Palette|
    ensures ArrowIndex(true, ArrowIndex(false, i)) == i
  {
  }

  /** A note card's component state. */
  class NoteCard {
    var note: string
    var color: string
    var isEditing: bool

    /** The initial state: the data's note and colour, or the defaults when empty or absent. */
    constructor(dataNote: Option<string>, dataColor: Option<string>)
      ensures note == OrElse(dataNote, DefaultNote)
      ensures color == OrElse(dataColor, DefaultColor)
      ensures !isEditing
    {
      note := OrElse(dataNote, DefaultNote);
      color := OrElse(dataColor, DefaultColor);
      isEditing := false;
    }

    /** Clicking the colour button of index `button`. */
    method ClickColor(button: nat)
      requires button < |Palette|
      modifies this
      ensures color == Palette[button]
      ensures note == old(note) && isEditing == old(isEditing)
    {
      color := Palette[button];
    }

    /**
     * A key on the colour button of index `button`: an arrow selects the neighbouring
     * colour of that button, whatever the current colour; other keys change nothing.
     */
    method ColorKeyDown(button: nat, key: string)
      requires button < |Palette|
      modifies this
      ensures key == "ArrowRight" ==> color == Palette[ArrowIndex(true, button)]
      ensures key == "ArrowLeft" ==> color == Palette[ArrowIndex(false, button)]
      ensures key != "ArrowRight" && key != "ArrowLeft" ==> color == old(color)
      ensures color in Palette || color == old(color)
      ensures note == old(note) && isEditing == old(isEditing)
    {
      if key == "ArrowRight" || key == "ArrowLeft" {
        var next := ArrowIndex(key == "ArrowRight", button);
        color := Palette[next];
      }
    }

    /** Typing in the text area. */
    method ChangeNote(text: string)
      modifies this
      ensures note == text && color == old(color) && isEditing == old(isEditing)
    {
      note := text;
    }

    /** A key in the text area: Ctrl+Enter or Escape leaves editing. */
    method TextAreaKeyDown(key: string, ctrlKey: bool)
      modifies this
      ensures isEditing == (old(isEditing) && !((key == "Enter" && ctrlKey) || key == "Escape"))
      ensures note == old(note) && color == old(color)
    {
      if key == "Enter" && ctrlKey {
        isEditing := false;
      }
      if key == "Escape" {
        isEditing := false;
      }
    }

    /** The text area losing focus leaves editing. */
    method Blur()
      modifies this
      ensures !isEditing && note == old(note) && color == old(color)
    {
      isEditing := false;
    }

    /** Clicking the shown note starts editing. */
    method ClickContent()
      modifies this
      ensures isEditing && note == old(note) && color == old(color)
    {
      isEditing := true;
    }

    /** A key on the shown note: Enter or Space starts editing. */
    method ContentKeyDown(key: string)
      modifies this
      ensures isEditing == (old(isEditing) || key == "Enter" || key == " ")
      ensures note == old(note) && color == old(color)
    {
      if key == "Enter" || key == " " {
        isEditing := true;
      }
    }
  }

  /** Pressing an arrow twice on the same button selects the same colour both times. */
  method RepeatedArrowOnOneButton(card: NoteCard, button: nat, key: string)
    requires button < |Palette|
    requires key == "ArrowRight" || key == "ArrowLeft"
    modifies card
    ensures card.color == Palette[ArrowIndex(key == "ArrowRight", button)]
  {
    card.ColorKeyDown(button, key);
    var first := card.color;
    card.ColorKeyDown(button, key);
    assert card.color == first;
  }

  /**
   * Right then Left on the same button selects the right neighbour, then the left
   * neighbour of that button: it ends on the button's left neighbour, never on the
   * button's own colour.
   */
  method RightThenLeftOnOneButton(card: NoteCard, button: nat)
    requires button < |Palette|
    modifies card
    ensures card.color == Palette[ArrowIndex(false, button)]
    ensures card.color != Palette[button]
  {
    card.ColorKeyDown(button, "ArrowRight");
    assert card.color == Palette[ArrowIndex(true, button)];
    card.ColorKeyDown(button, "ArrowLeft");
  }
}
