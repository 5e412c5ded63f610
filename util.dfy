/** battery_handyman/util.py: the battery snapshot, the placeholder extractor and the "do not toggle" signal. */
module Util {
  import opened Wrappers
  import opened Constants
  import opened Text

  /** A snapshot of the power supply, as the sensor reports it. */
  datatype BatteryInfo = BatteryInfo(isCharging: bool, leftInPercents: int)

  /** DoNotToogleChargingException: the charging state must be left as it is. */
  datatype DoNotToogleCharging = DoNotToogleCharging(message: string)

  /** Raising the signal, with or without an explicit message argument. */
  function NewDoNotToogleCharging(arg: Option<string>): (e: DoNotToogleCharging)
    ensures arg.None? ==> e.message == MsgChargingMustNotToBeToogled
    ensures arg.Some? ==> e.message == arg.value
  {
    match arg
    case None => DoNotToogleCharging(MsgChargingMustNotToBeToogled)
    case Some(m) => DoNotToogleCharging(m)
  }

  // ---------------------------------------------------------------------------
  // The regular expression \{([^}]+)\} and re.findall

  /** The pattern matches s[i..j+1]: a '{', at least one character that is not '}', and the first '}' after it. */
  ghost predicate MatchAt(s: string, i: int, j: int)
  {
    0 <= i && i + 1 < j < |s| && s[i] == '{' && s[j] == '}' && NoClose(s[i + 1..j])
  }

  /** Where the match tried at the start of s ends (the position of its '}'), if there is one. */
  function MatchEndAtStart(s: string): (r: Option<nat>)
    ensures r.Some? ==> MatchAt(s, 0, r.value)
  {
    if |s| > 0 && s[0] == '{' then
      match NextClose(s, 1)
      case Some(j) => if j > 1 then Some(j) else None
      case None => None
    else None
  }

  /**
   * The first groups of the non-overlapping matches of the pattern, scanned left to right:
   * a match is tried at each position; after a match the scan resumes behind its '}'.
   */
  function FindAll(s: string): (r: seq<string>)
    ensures forall k :: 0 <= k < |r| ==> |r[k]| > 0 && NoClose(r[k])
    decreases |s|
  {
    if |s| == 0 then []
    else
      match MatchEndAtStart(s)
      case Some(j) => [s[1..j]] + FindAll(s[j + 1..])
      case None => FindAll(s[1..])
  }

  lemma MatchShift(s: string, d: nat, i: int, j: int)
    requires d <= |s| && MatchAt(s[d..], i, j)
    ensures MatchAt(s, i + d, j + d) && s[d..][i + 1..j] == s[i + d + 1..j + d]
  {
    assert s[d..][i + 1..j] == s[i + d + 1..j + d];
  }

  lemma MatchUnshift(s: string, i: int, j: int)
    requires MatchAt(s, i, j) && i > 0
    ensures MatchAt(s[1..], i - 1, j - 1)
  {
    assert s[1..][i..j - 1] == s[i + 1..j];
  }

  /** Every group FindAll returns is the text between some match's braces. */
  lemma {:induction false} FindAllSound(s: string, k: nat) returns (i: int, j: int)
    requires k < |FindAll(s)|
    ensures MatchAt(s, i, j) && FindAll(s)[k] == s[i + 1..j]
    decreases |s|, 0
  {
    match MatchEndAtStart(s)
    case Some(c) =>
      if k == 0 {
        assert FindAll(s) == [s[1..c]] + FindAll(s[c + 1..]);
        i, j := 0, c;
      } else {
        i, j := FindAllSoundBehind(s, c + 1, k - 1);
        assert FindAll(s) == [s[1..c]] + FindAll(s[c + 1..]);
      }
    case None =>
      i, j := FindAllSoundBehind(s, 1, k);
      assert FindAll(s) == FindAll(s[1..]);
  }

  /** A group of the scan resumed at d is the text between the braces of a match in s. */
  lemma {:induction false} FindAllSoundBehind(s: string, d: nat, k: nat) returns (i: int, j: int)
    requires 0 < d <= |s| && k < |FindAll(s[d..])|
    ensures MatchAt(s, i, j) && FindAll(s[d..])[k] == s[i + 1..j]
    decreases |s| - d, 1
  {
    var i', j' := FindAllSound(s[d..], k);
    MatchShift(s, d, i', j');
    i, j := i' + d, j' + d;
  }

  /** Wherever the pattern can match, FindAll finds at least one group. */
  lemma {:induction false} FindAllComplete(s: string, i: int, j: int)
    requires MatchAt(s, i, j)
    ensures FindAll(s) != []
    decreases i
  {
    if MatchEndAtStart(s).None? {
      assert FindAll(s) == FindAll(s[1..]);
      if i == 0 {
        NextCloseAt(s, 1, j);
        assert false;
      } else {
        MatchUnshift(s, i, j);
        FindAllComplete(s[1..], i - 1, j - 1);
      }
    }
  }

  /** The template yields no group exactly when the pattern matches nowhere in it. */
  lemma FindAllEmptyIff(s: string)
    ensures FindAll(s) == [] <==> forall i, j :: !MatchAt(s, i, j)
  {
    if FindAll(s) != [] {
      var i, j := FindAllSound(s, 0);
    } else {
      forall i, j ensures !MatchAt(s, i, j) {
        if MatchAt(s, i, j) { FindAllComplete(s, i, j); }
      }
    }
  }

  /** Text without '{' contributes no group and does not disturb the scan behind it. */
  lemma {:induction false} FindAllSkipsPlainPrefix(p: string, s: string)
    requires forall i :: 0 <= i < |p| ==> p[i] != '{'
    ensures FindAll(p + s) == FindAll(s)
    decreases |p|
  {
    if p != [] {
      assert (p + s)[0] == p[0] && (p + s)[1..] == p[1..] + s;
      assert MatchEndAtStart(p + s).None?;
      assert FindAll(p + s) == FindAll(p[1..] + s);
      FindAllSkipsPlainPrefix(p[1..], s);
    } else {
      assert p + s == s;
    }
  }

  /** A single placeholder group is found as it is, and the scan resumes behind it. */
  lemma FindAllPlaceholder(name: string, s: string)
    requires |name| > 0 && NoClose(name)
    ensures FindAll("{" + name + "}" + s) == [name] + FindAll(s)
  {
    var t := "{" + name + "}" + s;
    assert t[1..|name| + 1] == name;
    NextCloseAt(t, 1, |name| + 1);
    assert t[|name| + 2..] == s;
  }

  // ---------------------------------------------------------------------------
  // The whitelist filter

  /** a occurs in b in order, possibly with gaps. */
  predicate IsSubsequence<T(==)>(a: seq<T>, b: seq<T>)
    decreases |b|
  {
    if a == [] then true
    else if b == [] then false
    else if a[0] == b[0] then IsSubsequence(a[1..], b[1..])
    else IsSubsequence(a, b[1..])
  }

  /** The keys of the list that are in the whitelist, in order, duplicates kept. */
  function FilterValid(keys: seq<string>): (r: seq<string>)
    ensures forall k :: k in r ==> k in RequestDataValidKeyList
    ensures IsSubsequence(r, keys)
    ensures forall k :: k in RequestDataValidKeyList ==> multiset(r)[k] == multiset(keys)[k]
  {
    if keys == [] then []
    else
      assert keys == [keys[0]] + keys[1..];
      var rest := FilterValid(keys[1..]);
      if keys[0] in RequestDataValidKeyList then
        assert ([keys[0]] + rest)[1..] == rest;
        [keys[0]] + rest
      else
        assert rest != [] ==> rest[0] in RequestDataValidKeyList;
        rest
  }

  /** parse_request_data_key_list: the whitelisted placeholder names of the template. */
  function ParseRequestDataKeyList(requestTemplate: string): (r: seq<string>)
    ensures forall k :: k in r ==> k in RequestDataValidKeyList
    ensures IsSubsequence(r, FindAll(requestTemplate))
    ensures forall k :: k in RequestDataValidKeyList ==> multiset(r)[k] == multiset(FindAll(requestTemplate))[k]
  {
    FilterValid(FindAll(requestTemplate))
  }

  /** needs_charging is a key of the template exactly when some group of the template is needs_charging. */
  lemma NeedsChargingKeyIff(requestTemplate: string)
    ensures RequestDataKeyNeedsCharging in ParseRequestDataKeyList(requestTemplate)
        <==> RequestDataKeyNeedsCharging in FindAll(requestTemplate)
  {
    var r := ParseRequestDataKeyList(requestTemplate);
    assert RequestDataKeyNeedsCharging in RequestDataValidKeyList;
    assert multiset(r)[RequestDataKeyNeedsCharging] == multiset(FindAll(requestTemplate))[RequestDataKeyNeedsCharging];
  }

  lemma NeedsChargingPlaceholder()
    ensures FindAll("{needs_charging}") == ["needs_charging"]
  {
    assert NoClose("needs_charging");
    FindAllPlaceholder("needs_charging", "");
    assert "{needs_charging}" == "{" + "needs_charging" + "}" + "";
  }

  lemma FilterNeedsCharging()
    ensures FilterValid(["needs_charging"]) == ["needs_charging"]
  {
    assert FilterValid(["needs_charging"]) == ["needs_charging"] + FilterValid([]);
  }

  /** A template whose only group is needs_charging, behind text without braces, yields exactly that key. */
  lemma ParsePlainPrefixThenNeedsCharging(p: string)
    requires forall i :: 0 <= i < |p| ==> p[i] != '{'
    ensures ParseRequestDataKeyList(p + "{needs_charging}") == ["needs_charging"]
  {
    NeedsChargingPlaceholder();
    FilterNeedsCharging();
    FindAllSkipsPlainPrefix(p, "{needs_charging}");
  }

  /** The two templates of the test suite for the extractor. */
  lemma ParseExamples()
    ensures ParseRequestDataKeyList("/power/{needs_charging}") == ["needs_charging"]
    ensures ParseRequestDataKeyList("/cm?cmnd=Power%20{needs_charging}") == ["needs_charging"]
  {
    ParsePlainPrefixThenNeedsCharging("/power/");
    assert "/power/{needs_charging}" == "/power/" + "{needs_charging}";
    ParsePlainPrefixThenNeedsCharging("/cm?cmnd=Power%20");
    assert "/cm?cmnd=Power%20{needs_charging}" == "/cm?cmnd=Power%20" + "{needs_charging}";
  }
}
