/**
 * The one piece of logic on the reports page (src/app/admin/reports/page.tsx):
 * the label drawn under each chart tick, `value.split(', ')[0].split(' ')[0]`.
 */
module Reports {

  /** `sep` occurs in `s` at position `i`. */
  predicate OccursAt(s: string, sep: string, i: nat)
    requires i <= |s|
  {
    sep <= s[i..]
  }

  /** `s.split(sep)[0]`: the text before the first occurrence of `sep`, or all of `s`. */
  function SplitHead(s: string, sep: string): (r: string)
    requires sep != ""
    ensures r <= s
    ensures forall i :: 0 <= i < |r| ==> !OccursAt(s, sep, i)
    ensures r == s || OccursAt(s, sep, |r|)
    decreases |s|
  {
    if s == "" then ""
    else if sep <= s then ""
    else
      var rest := SplitHead(s[1..], sep);
      assert forall i :: 0 <= i < |rest| + 1 ==> !OccursAt(s, sep, i) by {
        forall i | 0 <= i < |rest| + 1 ensures !OccursAt(s, sep, i) {
          if i > 0 {
            assert s[i..] == s[1..][i - 1..];
            assert !OccursAt(s[1..], sep, i - 1);
          }
        }
      }
      assert rest != s[1..] ==> OccursAt(s, sep, |rest| + 1) by {
        assert s[|rest| + 1..] == s[1..][|rest|..];
      }
      [s[0]] + rest
  }

  /** When `sep` first occurs at `k`, the head is exactly the text before `k`. */
  lemma SplitHeadAt(s: string, sep: string, k: nat)
    requires sep != "" && k <= |s| && OccursAt(s, sep, k)
    requires forall i :: 0 <= i < k ==> !OccursAt(s, sep, i)
    ensures SplitHead(s, sep) == s[..k]
  {
  }

  /** An occurrence at `i` puts the separator's `j`-th character at `i + j`. */
  lemma OccursAtChar(s: string, sep: string, i: nat, j: nat)
    requires j < |sep| && i <= |s|
    ensures OccursAt(s, sep, i) ==> i + j < |s| && s[i + j] == sep[j]
  {
  }

  /** Without any occurrence of `sep` the head is the whole text. */
  lemma SplitHeadAbsent(s: string, sep: string)
    requires sep != ""
    requires forall i :: 0 <= i <= |s| ==> !OccursAt(s, sep, i)
    ensures SplitHead(s, sep) == s
  {
  }

  /** The tick label of a report period. */
  function TickLabel(period: string): (tick: string)
    ensures tick <= period
    ensures ' ' !in tick
    ensures ' ' !in period ==> tick == period
    ensures tick == period || period[|tick|] == ' ' || OccursAt(period, ", ", |tick|)
    ensures forall i :: 0 <= i < |tick| ==> !OccursAt(period, ", ", i)
  {
    var head := SplitHead(period, ", ");
    var tick := SplitHead(head, " ");
    assert ' ' !in tick by {
      forall i | 0 <= i < |tick| ensures tick[i] != ' ' {
        assert !OccursAt(head, " ", i);
      }
    }
    assert tick != head ==> period[|tick|] == ' ' by {
      if tick != head {
        OccursAtChar(head, " ", |tick|, 0);
        assert head[|tick|] == period[|tick|];
      }
    }
    if ' ' !in period then
      NoSpaceMeansNoSeparators(period);
      NoSpaceMeansNoSeparators(head);
      tick
    else
      tick
  }

  /** A text without spaces contains neither separator. */
  lemma NoSpaceMeansNoSeparators(s: string)
    requires ' ' !in s
    ensures SplitHead(s, ", ") == s && SplitHead(s, " ") == s
  {
    forall i | 0 <= i <= |s| ensures !OccursAt(s, ", ", i) && !OccursAt(s, " ", i) {
      OccursAtChar(s, " ", i, 0);
      OccursAtChar(s, ", ", i, 1);
      assert i < |s| ==> s[i] in s;
      assert i + 1 < |s| ==> s[i + 1] in s;
    }
    SplitHeadAbsent(s, ", ");
    SplitHeadAbsent(s, " ");
  }

  /** Labelling a label changes nothing. */
  lemma TickLabelIdempotent(period: string)
    ensures TickLabel(TickLabel(period)) == TickLabel(period)
  {
  }

  /** The label is the head on ", " and then the head on " ". */
  lemma TickLabelOfHeads(period: string, head: string, tick: string)
    requires SplitHead(period, ", ") == head && SplitHead(head, " ") == tick
    ensures TickLabel(period) == tick
  {
  }

  /** A text whose first space is at `k` has the first `k` characters as its head on " ". */
  lemma FirstWord(s: string, k: nat)
    requires k < |s| && s[k] == ' ' && ' ' !in s[..k]
    ensures SplitHead(s, " ") == s[..k]
  {
    forall i | 0 <= i < k ensures !OccursAt(s, " ", i) {
      OccursAtChar(s, " ", i, 0);
      assert s[i] == s[..k][i];
    }
    assert OccursAt(s, " ", k) by {
      assert s[k..][..1] == [s[k]];
    }
    SplitHeadAt(s, " ", k);
  }

  /** Text without a comma before `k` holds no ", " starting before `k`. */
  lemma NoCommaBefore(s: string, k: nat)
    requires k <= |s| && ',' !in s[..k]
    ensures forall i :: 0 <= i < k ==> !OccursAt(s, ", ", i)
  {
    forall i | 0 <= i < k ensures !OccursAt(s, ", ", i) {
      OccursAtChar(s, ", ", i, 0);
      assert s[i] == s[..k][i];
    }
  }

  /**
   * A period whose first ", " is at `k` and whose first space is at `m`,
   * before `k`, is labelled by its first `m` characters.
   */
  lemma TickLabelCutAt(period: string, k: nat, m: nat)
    requires m < k <= |period| && OccursAt(period, ", ", k) && ',' !in period[..k]
    requires period[m] == ' ' && ' ' !in period[..m]
    ensures TickLabel(period) == period[..m]
  {
    NoCommaBefore(period, k);
    SplitHeadAt(period, ", ", k);
    var head := period[..k];
    assert head[m] == ' ' && head[..m] == period[..m];
    FirstWord(head, m);
    TickLabelOfHeads(period, head, period[..m]);
  }

  /** A period without a comma whose first space is at `m` is labelled by its first `m` characters. */
  lemma TickLabelNoCommaCutAt(period: string, m: nat)
    requires ',' !in period && m < |period| && period[m] == ' ' && ' ' !in period[..m]
    ensures TickLabel(period) == period[..m]
  {
    assert period[..|period|] == period;
    NoCommaBefore(period, |period|);
    assert !OccursAt(period, ", ", |period|);
    SplitHeadAbsent(period, ", ");
    FirstWord(period, m);
    TickLabelOfHeads(period, period, period[..m]);
  }

  /** A daily period has no space and is its own label. */
  lemma DayTickLabel()
    ensures TickLabel("2024-07-20") == "2024-07-20"
  {
    var day := "2024-07-20";
    assert forall i :: 0 <= i < |day| ==> day[i] != ' ';
  }

  /** A weekly period is labelled by its first word. */
  lemma WeekTickLabel()
    ensures TickLabel("Week 28, 2024") == "Week"
  {
    var week := "Week 28, 2024";
    assert week[..7] == "Week 28" && week[..4] == "Week";
    assert week[7..][..2] == ", ";
    TickLabelCutAt(week, 7, 4);
  }

  /** A monthly period is labelled by the month name. */
  lemma MonthTickLabel()
    ensures TickLabel("July 2024") == "July"
  {
    var month := "July 2024";
    assert month[..4] == "July";
    TickLabelNoCommaCutAt(month, 4);
  }
}
