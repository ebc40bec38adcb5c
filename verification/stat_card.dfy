/**
  The stat card's secondary line: an optional percentage change and an
  optional subtext, joined by a separator when both are shown.
 */
module StatCard {
  import opened Wrappers

  /** A subtext is shown when it is present and non-empty (JavaScript truthiness). */
  predicate Truthy(s: Option<string>) {
    s.Some? && s.value != ""
  }

  /** The secondary line is rendered when there is a change (even 0) or a shown subtext. */
  predicate ShowsLine(change: Option<real>, subtext: Option<string>) {
    change.Some? || Truthy(subtext)
  }

  /** A positive change is green; zero and negative changes are red. */
  function ChangeClass(change: real): (r: string)
    ensures r == "text-green-600 dark:text-green-400" <==> change > 0.0
    ensures r == "text-green-600 dark:text-green-400" || r == "text-red-600 dark:text-red-400"
  {
    if change > 0.0 then "text-green-600 dark:text-green-400" else "text-red-600 dark:text-red-400"
  }

  /** Only a positive change gets an explicit `+`; a negative one carries its own minus sign. */
  function ChangePrefix(change: real): (r: string)
    ensures r == "+" <==> change > 0.0
    ensures r == "" <==> change <= 0.0
  {
    if change > 0.0 then "+" else ""
  }

  /** The separator, written in the source as the characters `Â·` between two spaces. */
  const Separator := " \U{00C2}\U{00B7} "

  /** The separator is rendered exactly when both the change and the subtext are. */
  function SeparatorShown(change: Option<real>, subtext: Option<string>): (r: string)
    ensures r == Separator <==> change.Some? && Truthy(subtext)
    ensures r == "" <==> !(change.Some? && Truthy(subtext))
  {
    if change.Some? && Truthy(subtext) then Separator else ""
  }

  /** A separator never appears on a card without a line, nor next to a missing part. */
  lemma SeparatorNeedsBothParts(change: Option<real>, subtext: Option<string>)
    ensures SeparatorShown(change, subtext) != "" ==> ShowsLine(change, subtext)
    ensures !ShowsLine(change, subtext) ==> change.None? && !Truthy(subtext)
    ensures ShowsLine(Some(0.0), None) && ChangeClass(0.0) == "text-red-600 dark:text-red-400"
  {
  }
}
