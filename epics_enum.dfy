/**
 * The command channel of a chopper: an EPICS PV whose value is an ordinal
 * into a list of labels that the IOC reports in the write PV's metadata.
 * Labels go in as strings and are written as ordinals; ordinals read back
 * are turned into labels again.
 */
module EpicsEnum {
  import opened Wrappers
  import opened Text

  /** The NICOS session modes; only SIMULATION changes what `doInit` does. */
  datatype Mode = Master | Slave | Simulation | Maintenance

  /** What `doStart` is given: a string label, or any other value (a raw ordinal). */
  datatype Command = Label(text: string) | Raw(ordinal: int)

  datatype Error =
    | UnknownLabel(name: string)   // `list.index` raises ValueError for the lower-cased label
    | InvalidOrdinal(ordinal: int)  // `list[i]` raises IndexError
    | Communication                 // the PV write was not accepted

  /**
   * The ordinal `doStart` writes for `value`: a label is lower-cased and
   * looked up (first occurrence) in `labels`; anything else passes through.
   */
  function Resolve(labels: seq<string>, value: Command): (r: Result<int, Error>)
    ensures value.Raw? ==> r == Success(value.ordinal)
    ensures value.Label? ==> (r.Failure? <==> Lower(value.text) !in labels)
    ensures value.Label? && r.Failure? ==> r.error == UnknownLabel(Lower(value.text))
    ensures value.Label? && r.Success? ==>
      0 <= r.value < |labels| && labels[r.value] == Lower(value.text) &&
      forall j :: 0 <= j < r.value ==> labels[j] != Lower(value.text)
  {
    match value
    case Raw(n) => Success(n)
    case Label(s) =>
      match IndexOf(labels, Lower(s))
      case None => Failure(UnknownLabel(Lower(s)))
      case Some(i) => Success(i)
  }

  /**
   * `labels[i]` with Python's indexing: a negative `i` counts from the end,
   * anything outside `-|labels| .. |labels|-1` raises IndexError.
   */
  function LabelAt(labels: seq<string>, i: int): (r: Result<string, Error>)
    ensures r.Success? <==> -|labels| <= i < |labels|
    ensures 0 <= i < |labels| ==> r == Success(labels[i])
    ensures -|labels| <= i < 0 ==> r == Success(labels[|labels| + i])
    ensures r.Failure? ==> r.error == InvalidOrdinal(i)
  {
    if 0 <= i < |labels| then Success(labels[i])
    else if -|labels| <= i < 0 then Success(labels[|labels| + i])
    else Failure(InvalidOrdinal(i))
  }

  class EpicsEnumMoveable {
    /** `enum_strs`: empty until `DoInit` fetches the labels outside simulation. */
    var labels: seq<string>
    /** The values accepted by the write PV, oldest first. */
    var written: seq<int>

    constructor ()
      ensures labels == [] && written == []
    {
      labels := [];
      written := [];
    }

    /**
     * `doInit`: outside SIMULATION, replace the labels by the `enum_strs`
     * entry of the write PV's control metadata (`[]` when the entry is
     * missing); in SIMULATION leave them alone.
     */
    method DoInit(mode: Mode, enumStrsCtrl: Option<seq<string>>)
      modifies this`labels
      ensures mode == Simulation ==> labels == old(labels)
      ensures mode != Simulation ==>
        labels == (if enumStrsCtrl.Some? then enumStrsCtrl.value else [])
    {
      if mode != Simulation {
        labels := if enumStrsCtrl.Some? then enumStrsCtrl.value else [];
      }
    }

    /**
     * `doStart`: resolve `value` and write the ordinal. `accepted` is whether
     * the PV layer takes the write. An unknown label fails before the write.
     */
    method DoStart(value: Command, accepted: bool) returns (r: Result<int, Error>)
      modifies this`written
      ensures Resolve(labels, value).Failure? ==> r == Resolve(labels, value)
      ensures Resolve(labels, value).Success? && !accepted ==> r == Failure(Communication)
      ensures Resolve(labels, value).Success? && accepted ==> r == Resolve(labels, value)
      ensures written == if r.Success? then old(written) + [r.value] else old(written)
    {
      var ordinal :- Resolve(labels, value);
      if !accepted {
        return Failure(Communication);
      }
      written := written + [ordinal];
      r := Success(ordinal);
    }

    /** `doRead`: the label for the ordinal the read PV reports. */
    function DoRead(readback: int): (r: Result<string, Error>)
      reads this
      ensures r.Failure? <==> readback >= |labels| || readback < -|labels|
      ensures r.Success? ==> r.value in labels
    {
      LabelAt(labels, readback)
    }
  }

  /** A label resolves the same whatever the case of its ASCII letters ("Start" and "start"). */
  lemma ResolveIgnoresCase(labels: seq<string>, s: string)
    ensures Resolve(labels, Label(s)).Success? <==> Resolve(labels, Label(Lower(s))).Success?
    ensures Resolve(labels, Label(s)).Success? ==>
      Resolve(labels, Label(s)).value == Resolve(labels, Label(Lower(s))).value
  {
    LowerIdempotent(s);
  }

  /** Before `DoInit` has fetched anything, no label resolves. */
  lemma UnpopulatedRejectsEveryLabel(s: string)
    ensures Resolve([], Label(s)) == Failure(UnknownLabel(Lower(s)))
  {
  }

  /**
   * Stored labels are not lower-cased, only the command is: whatever the
   * list, a label resolves only to a position holding a lower-case entry.
   */
  lemma ResolvedLabelIsLower(labels: seq<string>, s: string)
    requires Resolve(labels, Label(s)).Success?
    ensures IsLower(labels[Resolve(labels, Label(s)).value])
  {
    LowerIsLower(s);
  }

  /** So a list whose only entry has a capital letter (`["Start"]`) matches no label at all. */
  lemma CapitalisedLabelNeverMatches(labels: seq<string>, s: string)
    requires labels == ["Start"]
    ensures Resolve(labels, Label(s)).Failure?
  {
    if Resolve(labels, Label(s)).Success? {
      ResolvedLabelIsLower(labels, s);
      assert IsUpper(labels[0][0]);
    }
  }

  /** Write, then read back the same ordinal: the label comes back lower-cased. */
  lemma ReadBackWrittenLabel(labels: seq<string>, s: string)
    requires Resolve(labels, Label(s)).Success?
    ensures LabelAt(labels, Resolve(labels, Label(s)).value) == Success(Lower(s))
  {
  }

  /** Reading an ordinal then commanding its label gives the ordinal back, for distinct lower-case labels. */
  lemma ResolveReadLabel(labels: seq<string>, i: int)
    requires 0 <= i < |labels|
    requires forall j, k :: 0 <= j < k < |labels| ==> labels[j] != labels[k]
    requires forall j :: 0 <= j < |labels| ==> IsLower(labels[j])
    ensures LabelAt(labels, i).Success?
    ensures Resolve(labels, Label(LabelAt(labels, i).value)) == Success(i)
  {
    LowerOfLower(labels[i]);
    IndexOfDistinct(labels, i);
  }
}
