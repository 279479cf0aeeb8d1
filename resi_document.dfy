/** `maskPhone` of the printed shipping label: hides the end of a phone
    number. A missing phone is `None`; `Some("")` is the empty string. */
module ResiDocument {
  import opened Wrappers

  const Stars: string := "***"

  function MaskPhone(phone: Option<string>): (r: string)
    ensures phone.None? || phone == Some("") || phone == Some("-") ==> r == "-"
    ensures phone.Some? && phone.value != "-" && 0 < |phone.value| <= 5 ==> r == phone.value
    ensures phone.Some? && |phone.value| > 5 ==>
      var s := phone.value;
      && |r| == |s| - 2
      && r[..|s| - 5] == s[..|s| - 5]
      && r[|s| - 5..] == Stars
  {
    if phone.None? || phone.value == "" || phone.value == "-" then "-"
    else
      var s := phone.value;
      if |s| <= 5 then s else s[..|s| - 5] + Stars
  }

  /** Masking a number longer than five characters forgets exactly its last
      five: two such numbers print alike precisely when they agree on
      everything before those five. */
  lemma MaskForgetsLastFive(s: string, t: string)
    requires |s| > 5 && |t| > 5
    ensures MaskPhone(Some(s)) == MaskPhone(Some(t)) <==> s[..|s| - 5] == t[..|t| - 5]
  {
    var ms, mt := MaskPhone(Some(s)), MaskPhone(Some(t));
    if ms == mt {
      assert |s| == |t|;
      assert s[..|s| - 5] == ms[..|s| - 5];
    }
  }
}
