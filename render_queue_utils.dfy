/** RenderQueueUtils: the four render-queue ranges that split geometry into draw groups.
    A material's render queue value selects the group; ranges are inclusive at both ends. */
module RenderQueueUtils {

  datatype RenderQueueRange = RenderQueueRange(min: int, max: int)
  {
    predicate Contains(queue: int)
    {
      min <= queue <= max
    }
  }

  const All := RenderQueueRange(0, 5000)
  const Opaque := RenderQueueRange(0, 2500)
  const Transparent := RenderQueueRange(2501, 4500)
  const Oit := RenderQueueRange(4501, 5000)

  /** No queue value belongs to two of the three draw groups. */
  lemma GroupsDisjoint(q: int)
    ensures !(Opaque.Contains(q) && Transparent.Contains(q))
    ensures !(Transparent.Contains(q) && Oit.Contains(q))
    ensures !(Opaque.Contains(q) && Oit.Contains(q))
  {
  }

  /** Each group starts one past the end of the previous one. */
  lemma GroupsContiguous()
    ensures Opaque.min == All.min
    ensures Opaque.max + 1 == Transparent.min
    ensures Transparent.max + 1 == Oit.min
    ensures Oit.max == All.max
  {
  }

  /** Together the three groups are exactly the range `All`. */
  lemma GroupsCoverAll(q: int)
    ensures All.Contains(q) <==> Opaque.Contains(q) || Transparent.Contains(q) || Oit.Contains(q)
  {
  }

  /** Opaque queues come before transparent ones, which come before OIT ones. */
  lemma GroupsOrdered(a: int, b: int)
    ensures Opaque.Contains(a) && Transparent.Contains(b) ==> a < b
    ensures Transparent.Contains(a) && Oit.Contains(b) ==> a < b
    ensures Opaque.Contains(a) && Oit.Contains(b) ==> a < b
  {
  }

}
