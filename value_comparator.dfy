/** The comparator command-line flag (value_comparator.go): a value that
    accepts only the four gvaclient.Comparator constants. */
module ValueComparator {
  import opened Outcomes
  import Text

  /** The gvaclient.Comparator constants. Their text is defined in a gvaclient
      file that is not part of this model, so only their names are fixed here. */
  const IsEqualTo: string
  const IsGreaterThan: string
  const IsLessThan: string
  const IsNotEqualTo: string

  const MessagePrefix := "comparator must be one of: "

  /** The accepted values, in the order the error message lists them. */
  function AllowedValues(): seq<string>
  {
    [IsEqualTo, IsGreaterThan, IsLessThan, IsNotEqualTo]
  }

  predicate IsAllowed(s: string)
  {
    s == IsEqualTo || s == IsGreaterThan || s == IsLessThan || s == IsNotEqualTo
  }

  /** The error Set returns for a value it refuses. */
  function RefusalMessage(): string
  {
    MessagePrefix + Text.Join(AllowedValues(), ", ")
  }

  /** The message lists the four constants, separated by ", ", in the order
      equal, greater, less, not-equal. */
  lemma RefusalMessageText()
    ensures RefusalMessage()
      == MessagePrefix + IsEqualTo + ", " + IsGreaterThan + ", " + IsLessThan + ", " + IsNotEqualTo
  {
    var vs := AllowedValues();
    assert vs[1..][1..][1..] == [IsNotEqualTo];
    assert Text.Join(vs[1..][1..], ", ") == IsLessThan + ", " + IsNotEqualTo;
    assert Text.Join(vs[1..], ", ") == IsGreaterThan + ", " + IsLessThan + ", " + IsNotEqualTo;
  }

  /** What Set does to a stored value: the new value and the error, if any. */
  datatype SetResult = SetResult(value: string, err: Option<string>)

  function SetOn(current: string, s: string): SetResult
  {
    if IsAllowed(s) then SetResult(s, None) else SetResult(current, Some(RefusalMessage()))
  }

  /** Set succeeds exactly on the four constants and then stores its argument;
      otherwise it returns the refusal message and keeps the stored value. */
  lemma SetOnAccepts(current: string, s: string)
    ensures SetOn(current, s).err.None? <==> s in AllowedValues()
    ensures SetOn(current, s).err.None? ==> SetOn(current, s).value == s
    ensures SetOn(current, s).err.Some? ==>
      SetOn(current, s).value == current
      && SetOn(current, s).err.value
         == MessagePrefix + IsEqualTo + ", " + IsGreaterThan + ", " + IsLessThan + ", " + IsNotEqualTo
  {
    RefusalMessageText();
  }

  /** Setting the same text twice leaves the same value and error as setting it once. */
  lemma SetOnIdempotent(current: string, s: string)
    ensures SetOn(SetOn(current, s).value, s) == SetOn(current, s)
  {
  }

  /** The flag value. A fresh one holds the empty comparator. */
  class Comparator {
    var value: string

    constructor ()
      ensures value == ""
    {
      value := "";
    }

    /** The stored comparator. */
    function Value(): (v: string)
      reads this
      ensures v == value
    {
      value
    }

    /** The stored comparator as text: the same string Value gives. */
    function String(): (s: string)
      reads this
      ensures s == Value()
    {
      value
    }

    /** The flag type name cobra shows. */
    function Type(): (t: string)
      ensures t == "Comparator"
    {
      "Comparator"
    }

    method Set(s: string) returns (err: Option<string>)
      modifies this
      ensures SetResult(value, err) == SetOn(old(value), s)
      ensures err.None? <==> IsAllowed(s)
      ensures err.None? ==> Value() == s && String() == s
      ensures err.Some? ==> value == old(value) && err.value == RefusalMessage()
    {
      if s == IsEqualTo || s == IsGreaterThan || s == IsLessThan || s == IsNotEqualTo {
        value := s;
        return None;
      }
      var allowedValues := Text.Join([IsEqualTo, IsGreaterThan, IsLessThan, IsNotEqualTo], ", ");
      return Some(MessagePrefix + allowedValues);
    }
  }
}
