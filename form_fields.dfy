/** The group-size select that both the booking wizard and the home page's
    contact form offer: ten options whose values are the decimal texts of 1 to
    10, and whose change handler stores `parseInt` of the chosen value. */
module FormFields {
  import opened Gateway
  import opened Js

  const MinGroupSize: int := 1
  const MaxGroupSize: int := 10

  /** The option values `[1, ..., 10].map(num => num.toString())`. */
  function GroupSizeChoices(): (choices: seq<string>)
    ensures |choices| == MaxGroupSize
  {
    seq(MaxGroupSize, i requires 0 <= i => IntToDecimal(i + 1))
  }

  /** Choosing an option stores the integer it names, never its text and never
      `NaN`, and that integer lies in 1..10. */
  lemma ChoiceParsesToGroupSize(choice: string)
    requires choice in GroupSizeChoices()
    ensures ParseInt(choice).Some?
    ensures MinGroupSize <= ParseInt(choice).value <= MaxGroupSize
    ensures IntToDecimal(ParseInt(choice).value) == choice
  {
    var choices := GroupSizeChoices();
    var i :| 0 <= i < |choices| && choices[i] == choice;
    ParseIntOfDecimal(i + 1);
  }

  /** Every size from 1 to 10 is offered, under its own decimal text. */
  lemma EveryGroupSizeOffered(n: int)
    requires MinGroupSize <= n <= MaxGroupSize
    ensures IntToDecimal(n) in GroupSizeChoices()
    ensures ParseInt(IntToDecimal(n)) == Some(n)
  {
    assert GroupSizeChoices()[n - 1] == IntToDecimal(n);
    ParseIntOfDecimal(n);
  }
}
