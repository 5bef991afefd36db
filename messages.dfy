/**
 * The conversation data the chat view receives from the transport layer:
 * messages made of typed parts, sections (one user turn and its assistant
 * replies) and the coarse transport status. Also the tool-part count that the
 * disclosure defaults depend on.
 */
module Messages {
  import opened Wrappers

  /** One typed fragment of a message (`part.type` in the source). */
  datatype Part = Part(kind: string)

  /**
   * A chat message. An empty `id` is the source's falsy id; `parts` is
   * `None` when the message carries no part list at all (`message.parts?`).
   */
  datatype Message = Message(id: string, parts: Option<seq<Part>>)

  /** One user turn and the assistant messages answering it, in order. */
  datatype Section = Section(id: string, userMessage: Message, assistantMessages: seq<Message>)

  /** The transport's coarse status; only two of its values mean "loading". */
  datatype Status = Idle | Submitted | Streaming | Done | Failed

  /** `status === 'submitted' || status === 'streaming'`: idle, done and failed never load. */
  function IsLoading(status: Status): bool {
    status == Submitted || status == Streaming
  }

  /** The four part types that count as tool invocations. */
  const ToolTypes: set<string> := {"tool-search", "tool-fetch", "tool-askQuestion", "tool-relatedQuestions"}

  predicate IsToolType(kind: string) {
    kind in ToolTypes
  }

  /** The parts of `parts` whose type is a tool type, in their original order. */
  function ToolParts(parts: seq<Part>): (r: seq<Part>)
    ensures |r| <= |parts|
    ensures forall p :: p in r ==> p in parts && IsToolType(p.kind)
  {
    if parts == [] then []
    else if IsToolType(parts[0].kind) then [parts[0]] + ToolParts(parts[1..])
    else ToolParts(parts[1..])
  }

  /**
   * `message.parts?.filter(part => toolTypes.includes(part.type)).length || 0`:
   * the number of positions holding a tool-type part, 0 without a part list.
   */
  function ToolCount(m: Message): (n: nat)
    ensures m.parts.None? ==> n == 0
    ensures m.parts.Some? ==> n == |ToolPositions(m.parts.value)| && n <= |m.parts.value|
  {
    match m.parts
    case None => 0
    case Some(ps) => ToolPartsCountsPositions(ps); |ToolParts(ps)|
  }

  /** The positions of tool-type parts: an independent reading of "how many tool parts". */
  function ToolPositions(parts: seq<Part>): set<nat> {
    set i: nat | i < |parts| && IsToolType(parts[i].kind)
  }

  /** Filtering keeps exactly the tool parts: its length is the number of tool positions. */
  lemma {:induction false} ToolPartsCountsPositions(parts: seq<Part>)
    ensures |ToolParts(parts)| == |ToolPositions(parts)|
  {
    if parts != [] {
      var rest := parts[1..];
      ToolPartsCountsPositions(rest);
      var shifted := set i: nat | i in ToolPositions(rest) :: i + 1;
      ToolPositionsShift(parts);
      ShiftPreservesSize(ToolPositions(rest));
      if IsToolType(parts[0].kind) {
        assert ToolPositions(parts) == {0} + shifted;
      } else {
        assert ToolPositions(parts) == shifted;
      }
    }
  }

  /** Past position 0, the tool positions are those of the tail, shifted by one. */
  lemma ToolPositionsShift(parts: seq<Part>)
    requires parts != []
    ensures ToolPositions(parts) - {0} == set i: nat | i in ToolPositions(parts[1..]) :: i + 1
    ensures 0 in ToolPositions(parts) <==> IsToolType(parts[0].kind)
  {
    var shifted := set i: nat | i in ToolPositions(parts[1..]) :: i + 1;
    forall i: nat | i in ToolPositions(parts) - {0} ensures i in shifted {
      assert (i - 1) in ToolPositions(parts[1..]);
    }
  }

  lemma {:induction false} ShiftPreservesSize(s: set<nat>)
    ensures |set i: nat | i in s :: i + 1| == |s|
    decreases |s|
  {
    if s != {} {
      var x :| x in s;
      var rest := s - {x};
      ShiftPreservesSize(rest);
      var all := set i: nat | i in s :: i + 1;
      var part := set i: nat | i in rest :: i + 1;
      assert all == part + {x + 1} by {
        forall y | y in all ensures y in part + {x + 1} {
          var i: nat :| i in s && y == i + 1;
          if i != x { assert i in rest; }
        }
      }
      assert x + 1 !in part;
    }
  }

  /** Adding a part to a message adds one to its tool count exactly when the part is a tool part. */
  lemma {:induction false} ToolPartsAppend(parts: seq<Part>, p: Part)
    ensures |ToolParts(parts + [p])| == |ToolParts(parts)| + (if IsToolType(p.kind) then 1 else 0)
  {
    if parts != [] {
      assert (parts + [p])[1..] == parts[1..] + [p];
      ToolPartsAppend(parts[1..], p);
    } else {
      assert parts + [p] == [p] && [p][1..] == [];
    }
  }
}
