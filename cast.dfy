/** The cast line of the detail view: the names of the cast members, in the
    order the cast listing returns them, separated by ", ". */
module Cast {

  datatype Person = Person(name: string)

  /** One entry of the cast listing (only the person's name is read). */
  datatype CastMember = CastMember(person: Person)

  /** The person names of a cast listing, in order. */
  function Names(cast: seq<CastMember>): seq<string>
  {
    seq(|cast|, i requires 0 <= i < |cast| => cast[i].person.name)
  }

  /** One step of the accumulation: the separator is written only when the
      text so far is not empty. */
  function AddName(text: string, name: string): string
  {
    if text != "" then text + ", " + name else name
  }

  /** The text the accumulation builds from `names`, taken left to right. */
  function CastSummary(names: seq<string>): string
  {
    if names == [] then ""
    else AddName(CastSummary(names[..|names| - 1]), names[|names| - 1])
  }

  /** The reference: `names` joined with ", " between neighbours. */
  function Join(names: seq<string>): string
  {
    if |names| == 0 then ""
    else if |names| == 1 then names[0]
    else names[0] + ", " + Join(names[1..])
  }

  /** `names` without its leading empty names. */
  function DropLeadingEmpty(names: seq<string>): (rest: seq<string>)
    ensures rest == [] || rest[0] != ""
  {
    if names == [] then []
    else if names[0] == "" then DropLeadingEmpty(names[1..])
    else names
  }

  /** The cast details of a listing, built as the store builds them: one name
      at a time into a running text. */
  method CastDetails(cast: seq<CastMember>) returns (castDetails: string)
    ensures castDetails == CastSummary(Names(cast))
  {
    castDetails := "";
    var i := 0;
    while i < |cast|
      invariant 0 <= i <= |cast|
      invariant castDetails == CastSummary(Names(cast[..i]))
    {
      var name := cast[i].person.name;
      if castDetails != "" {
        castDetails := castDetails + ", " + name;
      } else {
        castDetails := name;
      }
      assert Names(cast[..i + 1])[..i] == Names(cast[..i]);
      i := i + 1;
    }
    assert cast[..i] == cast;
  }

  lemma {:induction false} JoinAppend(names: seq<string>, name: string)
    requires names != []
    ensures Join(names + [name]) == Join(names) + ", " + name
  {
    if |names| > 1 {
      assert (names + [name])[1..] == names[1..] + [name];
      JoinAppend(names[1..], name);
    }
  }

  lemma {:induction false} JoinStartsWithFirst(names: seq<string>)
    requires names != []
    ensures |Join(names)| >= |names[0]|
  {
    if |names| > 1 {
      JoinStartsWithFirst(names[1..]);
    }
  }

  lemma {:induction false} DropLeadingEmptyAppend(names: seq<string>, name: string)
    ensures DropLeadingEmpty(names + [name]) ==
      if DropLeadingEmpty(names) == [] then (if name == "" then [] else [name])
      else DropLeadingEmpty(names) + [name]
  {
    if names == [] {
      assert names + [name] == [name];
      assert [name][1..] == [];
    } else {
      assert (names + [name])[1..] == names[1..] + [name];
      if names[0] == "" {
        DropLeadingEmptyAppend(names[1..], name);
      }
    }
  }

  /** The accumulated text is the reference join of the names that follow
      the leading empty ones: leading empty names add no separator, and an
      empty name after a non-empty one adds ", " followed by nothing. */
  lemma {:induction false} CastSummaryIsJoin(names: seq<string>)
    ensures CastSummary(names) == Join(DropLeadingEmpty(names))
    decreases |names|
  {
    if names != [] {
      var init, last := names[..|names| - 1], names[|names| - 1];
      assert names == init + [last];
      CastSummaryIsJoin(init);
      DropLeadingEmptyAppend(init, last);
      var kept := DropLeadingEmpty(init);
      if kept != [] {
        JoinStartsWithFirst(kept);
        JoinAppend(kept, last);
      }
    }
  }

  /** With no empty name the cast details are exactly the names joined with
      ", "; an empty cast listing gives "". */
  lemma CastSummaryAllNamed(names: seq<string>)
    requires forall i :: 0 <= i < |names| ==> names[i] != ""
    ensures CastSummary(names) == Join(names)
    ensures names == [] ==> CastSummary(names) == ""
  {
    CastSummaryIsJoin(names);
  }

  /** The cast details are empty exactly when every name is empty. */
  lemma CastSummaryEmpty(names: seq<string>)
    ensures CastSummary(names) == "" <==> forall i :: 0 <= i < |names| ==> names[i] == ""
  {
    CastSummaryIsJoin(names);
    DropLeadingEmptyAllEmpty(names);
    var kept := DropLeadingEmpty(names);
    if kept != [] {
      JoinStartsWithFirst(kept);
    }
  }

  lemma {:induction false} DropLeadingEmptyAllEmpty(names: seq<string>)
    ensures DropLeadingEmpty(names) == [] <==> forall i :: 0 <= i < |names| ==> names[i] == ""
  {
    if names != [] && names[0] == "" {
      DropLeadingEmptyAllEmpty(names[1..]);
      assert forall i :: 1 <= i < |names| ==> names[i] == names[1..][i - 1];
    }
  }
}
