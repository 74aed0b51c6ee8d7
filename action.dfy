/**
 * `role/Action.java`: the action enumeration and its lenient parser
 * `Action.of`, which trims, upper-cases and then looks the name up.
 */
module ActionParse {
  import opened Common
  import opened JavaStrings

  /** `Enum.valueOf`: the constant whose name is exactly `name`, or `None` (it throws). */
  function ValueOf(name: string): (r: Option<Action>)
    ensures r.Some? ==> ActionName(r.value) == name
    ensures r.None? ==> forall a :: ActionName(a) != name
  {
    if name == "CREATE" then Some(Create)
    else if name == "READ" then Some(Read)
    else if name == "UPDATE" then Some(Update)
    else if name == "DELETE" then Some(Delete)
    else None
  }

  /**
   * `Action.of(action)`: `None` stands for the IllegalArgumentException
   * that `valueOf` throws on a name that is not one of the four constants.
   */
  function Of(s: string): (r: Option<Action>)
    ensures r.Some? ==> ActionName(r.value) == ToUpper(Trim(s))
    ensures r.None? ==> forall a :: ActionName(a) != ToUpper(Trim(s))
  {
    ValueOf(ToUpper(Trim(s)))
  }

  /** Round trip: every constant parses back from its own name. */
  lemma OfName(a: Action)
    ensures Of(ActionName(a)) == Some(a)
  {
    var n := ActionName(a);
    assert forall i :: 0 <= i < |n| ==> 'A' <= n[i] <= 'Z';
    assert ToUpper(n) == n;
    OfIgnoresCaseAndPadding(a, [], n, []);
    assert [] + n + [] == n;
  }

  /**
   * Parsing ignores the case of the letters and any padding at or below
   * U+0020 around them: every spelling whose upper-case form is the name
   * of `a`, padded on either side, parses to `a`.
   */
  lemma OfIgnoresCaseAndPadding(a: Action, left: string, word: string, right: string)
    requires forall i :: 0 <= i < |left| ==> IsTrimmable(left[i])
    requires forall i :: 0 <= i < |right| ==> IsTrimmable(right[i])
    requires ToUpper(word) == ActionName(a)
    ensures Of(left + word + right) == Some(a)
  {
    var n := ActionName(a);
    assert n[0] != ' ' && n[|n| - 1] != ' ' && |word| == |n|;
    assert UpperChar(word[0]) == n[0] && UpperChar(word[|word| - 1]) == n[|n| - 1];
    TrimPadded(left, word, right);
  }

  /** The spellings "read", " Read " and "READ" all parse to READ. */
  lemma OfReadSpellings()
    ensures Of("read") == Some(Read)
    ensures Of(" Read ") == Some(Read)
    ensures Of("READ") == Some(Read)
  {
    OfReadLower();
    OfReadPadded();
    OfName(Read);
  }

  lemma OfReadLower()
    ensures Of("read") == Some(Read)
  {
    assert ToUpper("read") == "READ";
    OfIgnoresCaseAndPadding(Read, [], "read", []);
    assert [] + "read" + [] == "read";
  }

  lemma OfReadPadded()
    ensures Of(" Read ") == Some(Read)
  {
    assert ToUpper("Read") == "READ";
    OfIgnoresCaseAndPadding(Read, " ", "Read", " ");
    assert " " + "Read" + " " == " Read ";
  }

  /** A name that is not one of the four constants throws. */
  lemma OfRejectsUnknownName()
    ensures Of("remove") == None
  {
    TrimPadded([], "remove", []);
    assert [] + "remove" + [] == "remove";
    var u := ToUpper("remove");
    assert |u| == 6 && u[0] == 'R';
  }
}
