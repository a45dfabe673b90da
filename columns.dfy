/** The columns of a customer table: the 18 raw fields, the two sums the
    feature transform adds, and the text of each column's name, which is what
    the transform's prefix tests look at. */
module Columns {
  import opened Frames

  datatype Column =
    | Id
    | CreatedAt
    | CampaignVar(k: nat)      // campaign_var_1 and campaign_var_2
    | ProductsPurchased
    | SignupDate
    | UserActivityVar(k: nat)  // user_activity_var_1 to user_activity_var_12
    | SumUserActivities
    | SumCamp
  {
    /** The column's name in the table. */
    function Name(): string {
      match this
      case Id => "id"
      case CreatedAt => "created_at"
      case CampaignVar(k) => "campaign_var_" + NatText(k)
      case ProductsPurchased => "products_purchased"
      case SignupDate => "signup_date"
      case UserActivityVar(k) => "user_activity_var_" + NatText(k)
      case SumUserActivities => "sum_user_activities"
      case SumCamp => "sum_camp"
    }
  }

  /** The decimal digits of n, most significant first. */
  function NatText(n: nat): (s: string)
    ensures |s| >= 1
    ensures forall i | 0 <= i < |s| :: '0' <= s[i] <= '9'
  {
    var last := ('0' as int + n % 10) as char;
    if n < 10 then [last] else NatText(n / 10) + [last]
  }

  /** `s.startswith(prefix)`. */
  predicate StartsWith(s: string, prefix: string)
    ensures StartsWith(s, prefix) ==> |prefix| <= |s| && s == prefix + s[|prefix|..]
  {
    |prefix| <= |s| && s[..|prefix|] == prefix
  }

  /** A text that extends a text with the prefix also has the prefix. */
  lemma StartsWithAppend(s: string, t: string, prefix: string)
    requires StartsWith(s, prefix)
    ensures StartsWith(s + t, prefix)
  {
    assert (s + t)[..|prefix|] == s[..|prefix|];
  }

  /** A text that differs from the prefix at some position within both does
      not have the prefix. */
  lemma CharMismatch(s: string, prefix: string, k: nat)
    requires k < |s| && k < |prefix| && s[k] != prefix[k]
    ensures !StartsWith(s, prefix)
  {
    if |prefix| <= |s| {
      assert s[..|prefix|][k] != prefix[k];
    }
  }

  /** The prefix line 8 selects the activity flags by. */
  const ActivityPrefix: string := "user"

  /** The prefix line 20 selects the campaign variables by. */
  const CampaignPrefix: string := "camp"

  /** Exactly the activity columns have names starting with "user". */
  lemma UserPrefix(c: Column)
    ensures StartsWith(c.Name(), ActivityPrefix) <==> c.UserActivityVar?
  {
    var prefix := ActivityPrefix;
    match c
    case UserActivityVar(k) =>
      StartsWithAppend("user_activity_var_", NatText(k), prefix);
    case CampaignVar(k) =>
      CharMismatch(c.Name(), prefix, 0);
    case _ =>
      CharMismatch(c.Name(), prefix, 0);
  }

  /** Exactly the campaign columns have names starting with "camp". */
  lemma CampPrefix(c: Column)
    ensures StartsWith(c.Name(), CampaignPrefix) <==> c.CampaignVar?
  {
    var prefix := CampaignPrefix;
    match c
    case CampaignVar(k) =>
      StartsWithAppend("campaign_var_", NatText(k), prefix);
    case UserActivityVar(k) =>
      CharMismatch(c.Name(), prefix, 0);
    case CreatedAt =>
      CharMismatch(c.Name(), prefix, 1);
    case _ =>
      CharMismatch(c.Name(), prefix, 0);
  }

  /** `[x for x in columns if x.startswith(prefix)]`. */
  function WithPrefix(cols: seq<Column>, prefix: string): (r: seq<Column>)
    ensures |r| <= |cols|
  {
    if cols == [] then []
    else (if StartsWith(cols[0].Name(), prefix) then [cols[0]] else []) + WithPrefix(cols[1..], prefix)
  }

  /** Selecting by prefix keeps exactly the columns whose names carry it, and
      keeps distinct columns distinct. */
  lemma {:induction false} WithPrefixMembers(cols: seq<Column>, prefix: string)
    ensures forall c :: c in WithPrefix(cols, prefix) <==> c in cols && StartsWith(c.Name(), prefix)
    ensures Distinct(cols) ==> Distinct(WithPrefix(cols, prefix))
  {
    if cols != [] {
      WithPrefixMembers(cols[1..], prefix);
    }
  }

  /** Selecting by prefix distributes over concatenation. */
  lemma {:induction false} WithPrefixAppend(a: seq<Column>, b: seq<Column>, prefix: string)
    ensures WithPrefix(a + b, prefix) == WithPrefix(a, prefix) + WithPrefix(b, prefix)
  {
    if a == [] {
      assert a + b == b;
    } else {
      assert (a + b)[0] == a[0] && (a + b)[1..] == a[1..] + b;
      WithPrefixAppend(a[1..], b, prefix);
    }
  }

  /** Selecting by prefix keeps a list whose names all carry the prefix. */
  lemma {:induction false} WithPrefixAll(cols: seq<Column>, prefix: string)
    requires forall c | c in cols :: StartsWith(c.Name(), prefix)
    ensures WithPrefix(cols, prefix) == cols
  {
    if cols != [] {
      WithPrefixAll(cols[1..], prefix);
    }
  }

  /** Selecting by prefix empties a list none of whose names carries it. */
  lemma {:induction false} WithPrefixNone(cols: seq<Column>, prefix: string)
    requires forall c | c in cols :: !StartsWith(c.Name(), prefix)
    ensures WithPrefix(cols, prefix) == []
  {
    if cols != [] {
      WithPrefixNone(cols[1..], prefix);
    }
  }

  /** Selecting by prefix from a run without the prefix, then a run with it,
      then a run without it, keeps exactly the middle run. */
  lemma WithPrefixMiddle(a: seq<Column>, b: seq<Column>, c: seq<Column>, prefix: string)
    requires forall x | x in a + c :: !StartsWith(x.Name(), prefix)
    requires forall x | x in b :: StartsWith(x.Name(), prefix)
    ensures WithPrefix(a + b + c, prefix) == b
  {
    WithPrefixAppend(a + b, c, prefix);
    WithPrefixAppend(a, b, prefix);
    WithPrefixNone(a, prefix);
    WithPrefixNone(c, prefix);
    WithPrefixAll(b, prefix);
    assert [] + b + [] == b;
  }
}
