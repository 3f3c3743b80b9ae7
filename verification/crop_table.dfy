/**
 * `CropTable`: the harvest-status badge of each crop row, from its status and the whole days
 * between today and its expected harvest (`differenceInDays`, a parameter here), and the empty state.
 */
module CropTable {
  import opened Records

  datatype StatusBadge = Harvested | Overdue | ReadySoon | Growing | Planted

  /** `getStatusBadge`. */
  function Badge(status: string, daysToHarvest: int): (b: StatusBadge)
    ensures b == Harvested <==> status == "harvested"
    ensures b == Overdue <==> status != "harvested" && daysToHarvest < 0
    ensures b == ReadySoon <==> status != "harvested" && 0 <= daysToHarvest <= 7
    ensures b == Growing <==> status != "harvested" && 8 <= daysToHarvest <= 30
    ensures b == Planted <==> status != "harvested" && daysToHarvest > 30
  {
    if status == "harvested" then Harvested
    else if daysToHarvest < 0 then Overdue
    else if daysToHarvest <= 7 then ReadySoon
    else if daysToHarvest <= 30 then Growing
    else Planted
  }

  /** The badge's colour variant: Overdue and Ready Soon share "warning". */
  function Variant(b: StatusBadge): (v: string)
    ensures v == "success" <==> b == Harvested
    ensures v == "warning" <==> b == Overdue || b == ReadySoon
    ensures v == "info" <==> b == Growing
    ensures v == "default" <==> b == Planted
  {
    match b
    case Harvested => "success"
    case Overdue => "warning"
    case ReadySoon => "warning"
    case Growing => "info"
    case Planted => "default"
  }

  /** The colour a crop row shows: "success" once harvested, and otherwise "warning" up to a
      week before harvest or after it, "info" up to thirty days before, "default" beyond. */
  lemma VariantOfDays(status: string, daysToHarvest: int)
    ensures Variant(Badge(status, daysToHarvest)) == "success" <==> status == "harvested"
    ensures Variant(Badge(status, daysToHarvest)) == "warning" <==> status != "harvested" && daysToHarvest <= 7
    ensures Variant(Badge(status, daysToHarvest)) == "info" <==> status != "harvested" && 8 <= daysToHarvest <= 30
    ensures Variant(Badge(status, daysToHarvest)) == "default" <==> status != "harvested" && daysToHarvest > 30
  {
  }

  /** How pressing a badge is: Overdue above Ready Soon above Growing above Planted. */
  function Urgency(b: StatusBadge): nat {
    match b
    case Overdue => 4
    case ReadySoon => 3
    case Growing => 2
    case Planted => 1
    case Harvested => 0
  }

  /** For a crop not yet harvested, fewer days to harvest never make the badge less urgent. */
  lemma UrgencyMonotone(status: string, d1: int, d2: int)
    requires status != "harvested" && d1 <= d2
    ensures Urgency(Badge(status, d1)) >= Urgency(Badge(status, d2))
  {
  }

  /** What the table renders: the empty state, or one badge per crop row. */
  datatype View = EmptyState | Table(badges: seq<StatusBadge>)

  /** The table for `crops`, given each crop's days to harvest. */
  function Render(crops: seq<Crop>, daysToHarvest: Crop -> int): (v: View)
    ensures v.EmptyState? <==> crops == []
    ensures v.Table? ==> |v.badges| == |crops|
    ensures v.Table? ==> forall i :: 0 <= i < |crops| ==> v.badges[i] == Badge(crops[i].status, daysToHarvest(crops[i]))
  {
    if crops == [] then EmptyState
    else Table(seq(|crops|, i requires 0 <= i < |crops| => Badge(crops[i].status, daysToHarvest(crops[i]))))
  }
}
