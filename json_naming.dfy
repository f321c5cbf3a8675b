/** The camel-case property naming the API's JSON serializer applies to every member name
    it writes (the web defaults of System.Text.Json). */
module JsonNaming {

  import opened Ascii

  /** Lower-cases from position `i` on while the run of capitals continues: position 1 is
      lowered only if it is a capital, and a later capital is lowered only if the one after
      it is a capital too or it ends the name (a capital before a space is lowered as well). */
  function FixCasing(s: string, i: nat): (r: string)
    requires i <= |s|
    ensures |r| == |s|
    ensures r[..i] == s[..i]
    decreases |s| - i
  {
    if i == |s| then s
    else if i == 1 && !IsUpper(s[i]) then s
    else if i > 0 && i + 1 < |s| && !IsUpper(s[i + 1]) then
      (if s[i + 1] == ' ' then s[i := ToLower(s[i])] else s)
    else FixCasing(s[i := ToLower(s[i])], i + 1)
  }

  /** `JsonNamingPolicy.CamelCase.ConvertName`: names not starting with a capital are kept. */
  function CamelCase(name: string): (r: string)
    ensures |r| == |name|
    ensures name == [] || !IsUpper(name[0]) ==> r == name
    ensures name != [] && IsUpper(name[0]) ==> r[0] == ToLower(name[0])
  {
    if name == [] || !IsUpper(name[0]) then name else FixCasing(name, 0)
  }

  /** Converting an already converted name changes nothing. */
  lemma CamelCaseIdempotent(name: string)
    ensures CamelCase(CamelCase(name)) == CamelCase(name)
  {
  }

  /** The length of the run of capitals `name` starts with. */
  function CapitalRun(name: string): (m: nat)
    ensures m <= |name|
    ensures forall j :: 0 <= j < m ==> IsUpper(name[j])
    ensures m < |name| ==> !IsUpper(name[m])
  {
    if name == [] || !IsUpper(name[0]) then 0 else 1 + CapitalRun(name[1..])
  }

  /** Whether converting a name whose capital run has length `m` lowers position `j`. */
  predicate Lowered(j: nat, m: nat, n: nat)
  {
    j < m - 1 || (m == n && j < n)
  }

  lemma {:induction false} FixCasingInRun(s: string, i: nat, m: nat)
    requires 1 <= i < m <= |s|
    requires forall j :: i <= j < m ==> IsUpper(s[j])
    requires m < |s| ==> !IsUpper(s[m]) && s[m] != ' '
    ensures forall j :: i <= j < |s| ==>
              FixCasing(s, i)[j] == if Lowered(j, m, |s|) then ToLower(s[j]) else s[j]
    decreases m - i
  {
    var t := s[i := ToLower(s[i])];
    if i + 1 < m {
      FixCasingInRun(t, i + 1, m);
      assert FixCasing(s, i) == FixCasing(t, i + 1);
    } else if m == |s| {
      assert FixCasing(s, i) == FixCasing(t, i + 1) == t;
    } else {
      assert FixCasing(s, i) == s;
    }
  }

  /** For a name starting with a run of capitals followed by anything but a space, the
      conversion lowers every capital of the run except its last, unless the run is the
      whole name, which is then lowered throughout (`NITELIK_AD` becomes `niteliK_AD`,
      `URL` becomes `url`). */
  lemma CamelCaseOfCapitalRun(name: string)
    requires CapitalRun(name) >= 2
    requires CapitalRun(name) < |name| ==> name[CapitalRun(name)] != ' '
    ensures forall j :: 0 <= j < |name| ==>
              CamelCase(name)[j] == if Lowered(j, CapitalRun(name), |name|) then ToLower(name[j]) else name[j]
  {
    var m := CapitalRun(name);
    var t := name[0 := ToLower(name[0])];
    assert CamelCase(name) == FixCasing(t, 1);
    FixCasingInRun(t, 1, m);
  }
}
