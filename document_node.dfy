/**
 * How the document node shows the people attached to a document: each actor is either
 * a plain name or a stored actor object, and is displayed as a name with initials.
 */
module DocumentNode {
  import opened Wrappers
  import opened JsStrings
  import opened Values
  import DocumentIntegration

  /**
   * `parts.map(n => n[0]).join('')`: the first character of every part; an empty part
   * yields `undefined`, which joining prints as nothing.
   */
  function FirstChars(parts: seq<string>): (r: string)
    ensures |r| <= |parts|
  {
    if parts == [] then []
    else (if parts[0] == [] then [] else [parts[0][0]]) + FirstChars(parts[1..])
  }

  /** `getActorInitials`: upper-cased first letters of the space-separated words, at most two. */
  function Initials(name: string): (r: string)
    ensures |r| <= 2
    ensures forall i :: 0 <= i < |r| ==> !('a' <= r[i] <= 'z')
  {
    Slice(ToUpper(FirstChars(Split(name, ' '))), 0, 2)
  }

  lemma FirstChars2(a: string, b: string)
    requires a != [] && b != []
    ensures FirstChars([a, b]) == [a[0], b[0]]
  {
    assert [a, b][1..] == [b];
    assert [b][1..] == [];
  }

  /** A single word gives its upper-cased first letter. */
  lemma InitialsOfOneWord(a: string)
    requires a != [] && ' ' !in a
    ensures Initials(a) == [UpperChar(a[0])]
  {
    SplitNoSeparator(a, ' ');
    assert [a][1..] == [];
    assert FirstChars([a]) == [a[0]];
  }

  /** Two words separated by one space give both upper-cased first letters. */
  lemma InitialsOfTwoWords(a: string, b: string)
    requires a != [] && b != [] && ' ' !in a && ' ' !in b
    ensures Initials(a + " " + b) == [UpperChar(a[0]), UpperChar(b[0])]
  {
    SplitAppend(a, b, ' ');
    SplitNoSeparator(a, ' ');
    SplitNoSeparator(b, ' ');
    assert Split(a + " " + b, ' ') == [a] + [b] == [a, b];
    FirstChars2(a, b);
  }

  /** Concatenated lists of parts contribute their first characters in order. */
  lemma {:induction false} FirstCharsAppend(xs: seq<string>, ys: seq<string>)
    ensures FirstChars(xs + ys) == FirstChars(xs) + FirstChars(ys)
  {
    if xs != [] {
      var x := xs[0];
      var head := if x == [] then [] else [x[0]];
      assert (xs + ys)[0] == x && (xs + ys)[1..] == xs[1..] + ys;
      assert FirstChars(xs + ys) == head + FirstChars(xs[1..] + ys);
      FirstCharsAppend(xs[1..], ys);
      assert FirstChars(xs) == head + FirstChars(xs[1..]);
    } else {
      assert xs + ys == ys;
    }
  }

  /** A leading space only adds an empty part, so it does not change the initials. */
  lemma LeadingSpaceIgnored(name: string)
    ensures Initials(" " + name) == Initials(name)
  {
    SplitAppend("", name, ' ');
    assert "" + [' '] + name == " " + name;
    SplitNoSeparator("", ' ');
    FirstCharsAppend([""], Split(name, ' '));
    assert [""][1..] == [];
  }

  /** What the node shows for one actor. */
  datatype ActorDisplay = ActorDisplay(name: Value, initials: Value)

  const Unknown := ActorDisplay(Str("Unknown"), Str("U"))

  /**
   * `getActorDisplay`. A string is shown as itself; an object with a truthy `name` is shown
   * by that name, with its truthy `avatar` or else the name's initials; anything else is
   * shown as unknown. `None` is the one case in which the component throws: a truthy
   * `name` that is not a string and no avatar, so that `split` is called on a non-string.
   */
  function GetActorDisplay(actor: Value): (r: Option<ActorDisplay>)
    ensures r.None? <==>
      actor.Obj? && Truthy(Get(actor.fields, "name")) && !Get(actor.fields, "name").Str?
      && !Truthy(Get(actor.fields, "avatar"))
    ensures r.Some? && !actor.Str? ==> Truthy(r.value.name)
    ensures actor.Str? ==> r == Some(ActorDisplay(actor, Str(Initials(actor.s))))
    ensures actor.Obj? && Truthy(Get(actor.fields, "name")) && Truthy(Get(actor.fields, "avatar")) ==>
      r == Some(ActorDisplay(Get(actor.fields, "name"), Get(actor.fields, "avatar")))
    ensures actor.Obj? && Get(actor.fields, "name").Str? && Truthy(Get(actor.fields, "name"))
            && !Truthy(Get(actor.fields, "avatar")) ==>
      r == Some(ActorDisplay(Get(actor.fields, "name"), Str(Initials(Get(actor.fields, "name").s))))
    ensures !actor.Str? && !(actor.Obj? && Truthy(Get(actor.fields, "name"))) ==> r == Some(Unknown)
  {
    match actor
    case Str(s) => Some(ActorDisplay(actor, Str(Initials(s))))
    case Obj(fields) =>
      var name := Get(fields, "name");
      var avatar := Get(fields, "avatar");
      if !Truthy(name) then Some(Unknown)
      else if Truthy(avatar) then Some(ActorDisplay(name, avatar))
      else if name.Str? then Some(ActorDisplay(name, Str(Initials(name.s))))
      else None
    case _ => Some(Unknown)
  }

  /**
   * An actor stored by the document integration is displayed by its name, with its avatar
   * or else its initials, or as unknown when the name is empty; it never throws.
   */
  lemma StoredActorDisplay(a: DocumentIntegration.Actor)
    ensures a.name == "" ==> GetActorDisplay(DocumentIntegration.ActorValue(a)) == Some(Unknown)
    ensures a.name != "" ==>
      GetActorDisplay(DocumentIntegration.ActorValue(a)) ==
        Some(ActorDisplay(Str(a.name),
          if a.avatar.Some? && a.avatar.value != "" then Str(a.avatar.value)
          else Str(Initials(a.name))))
  {
    var fields := DocumentIntegration.ActorValue(a).fields;
    assert Get(fields, "name") == Str(a.name);
    if a.avatar.Some? {
      assert Get(fields, "avatar") == Str(a.avatar.value);
    } else {
      assert "avatar" !in fields;
    }
  }
}
