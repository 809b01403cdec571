/**
 * The slot syntax of plan templates, shared by `core/Planning/SQRComposer.py`
 * and `core/Document/Blueprints/SQRPlanFiller.py`: a slot is text holding
 * a match of the regular expression `({([^}]+)})`, an opening brace, one
 * or more characters other than a closing brace, and a closing brace.
 */
module TemplateSlots {

  /** `s[i..j+1]` is a match of `{[^}]+}`. */
  predicate BraceMatch(s: string, i: int, j: int)
  {
    0 <= i && i + 1 < j < |s| && s[i] == '{' && s[j] == '}' && forall k :: i < k < j ==> s[k] != '}'
  }

  /** The first position at or after `k` holding a closing brace. */
  function CloseFrom(s: string, k: nat): (r: nat)
    requires k <= |s|
    ensures k <= r <= |s|
    ensures r < |s| ==> s[r] == '}'
    ensures forall m :: k <= m < r ==> s[m] != '}'
    decreases |s| - k
  {
    if k == |s| || s[k] == '}' then k else CloseFrom(s, k + 1)
  }

  /** Some match starts at or after position `i`. */
  function SlotFrom(s: string, i: nat): bool
    requires i <= |s|
    decreases |s| - i
  {
    if i == |s| then false
    else if s[i] == '{' && i + 1 < |s| && s[i + 1] != '}' && CloseFrom(s, i + 1) < |s| then true
    else SlotFrom(s, i + 1)
  }

  /** The scan finds a match exactly when one starts at or after `i`. */
  lemma {:induction false} SlotFromMeaning(s: string, i: nat)
    requires i <= |s|
    ensures SlotFrom(s, i) <==> exists p, j :: i <= p && BraceMatch(s, p, j)
    decreases |s| - i
  {
    if i == |s| {
    } else if s[i] == '{' && i + 1 < |s| && s[i + 1] != '}' && CloseFrom(s, i + 1) < |s| {
      assert BraceMatch(s, i, CloseFrom(s, i + 1));
    } else {
      SlotFromMeaning(s, i + 1);
      assert forall j :: !BraceMatch(s, i, j) by {
        forall j | BraceMatch(s, i, j) ensures false {
        }
      }
    }
  }

  /** `is_slot(s)`: `re.search(r'({([^}]+)})', s)` finds a match. */
  function IsSlot(s: string): bool
  {
    SlotFrom(s, 0)
  }

  /** `is_slot` holds exactly when the text holds a match of `{[^}]+}`. */
  lemma IsSlotMeaning(s: string)
    ensures IsSlot(s) <==> exists i, j :: BraceMatch(s, i, j)
  {
    SlotFromMeaning(s, 0);
  }

  predicate IsBrace(c: char)
  {
    c == '{' || c == '}'
  }

  /** `s.lstrip("{}")`. */
  function LStripBraces(s: string): string
    decreases |s|
  {
    if s != "" && IsBrace(s[0]) then LStripBraces(s[1..]) else s
  }

  /** `lstrip` drops exactly the leading braces: what is left is a suffix that starts with no brace. */
  lemma {:induction false} LStripBracesMeaning(s: string)
    ensures |LStripBraces(s)| <= |s| && LStripBraces(s) == s[|s| - |LStripBraces(s)|..]
    ensures LStripBraces(s) == "" || !IsBrace(LStripBraces(s)[0])
    ensures forall k :: 0 <= k < |s| - |LStripBraces(s)| ==> IsBrace(s[k])
    decreases |s|
  {
    if s != "" && IsBrace(s[0]) {
      LStripBracesMeaning(s[1..]);
      forall k | 0 < k < |s| - |LStripBraces(s)| ensures IsBrace(s[k]) {
        assert s[k] == s[1..][k - 1];
      }
    }
  }

  /** `s.rstrip("{}")`. */
  function RStripBraces(s: string): string
    decreases |s|
  {
    if s != "" && IsBrace(s[|s| - 1]) then RStripBraces(s[..|s| - 1]) else s
  }

  /** `rstrip` drops exactly the trailing braces: what is left is a prefix that ends with no brace. */
  lemma {:induction false} RStripBracesMeaning(s: string)
    ensures |RStripBraces(s)| <= |s| && RStripBraces(s) == s[..|RStripBraces(s)|]
    ensures RStripBraces(s) == "" || !IsBrace(RStripBraces(s)[|RStripBraces(s)| - 1])
    ensures forall k :: |RStripBraces(s)| <= k < |s| ==> IsBrace(s[k])
    decreases |s|
  {
    if s != "" && IsBrace(s[|s| - 1]) {
      RStripBracesMeaning(s[..|s| - 1]);
      forall k | |RStripBraces(s)| <= k < |s| - 1 ensures IsBrace(s[k]) {
        assert s[k] == s[..|s| - 1][k];
      }
      assert s[..|s| - 1][..|RStripBraces(s)|] == s[..|RStripBraces(s)|];
    }
  }

  /** `s.strip("{}")`: the slot key, the whole text without its outer braces. */
  function StripBraces(s: string): string
  {
    RStripBraces(LStripBraces(s))
  }

  /** A slot written `{K}`, with no brace in `K`, is a slot whose key is `K`. */
  lemma StripBracesOfSlot(k: string)
    requires k != "" && forall m :: 0 <= m < |k| ==> !IsBrace(k[m])
    ensures IsSlot("{" + k + "}")
    ensures StripBraces("{" + k + "}") == k
  {
    var s := "{" + k + "}";
    assert BraceMatch(s, 0, |k| + 1);
    IsSlotMeaning(s);
    assert s[1..] == k + "}";
    assert LStripBraces(k + "}") == k + "}";
    assert LStripBraces(s) == k + "}";
    assert (k + "}")[..|k|] == k;
    assert RStripBraces(k) == k;
  }
}
