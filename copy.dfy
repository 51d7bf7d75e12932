/** `clblast/src/copy.rs`: the `VectorCopy` descriptor, which copies x into y (`xCOPY`). */
module Copy {
  import opened Wrappers
  import opened ClblastC
  import opened StatusTranslation
  import opened Native
  import opened Level1

  /** The entry point each scalar type's `run` calls. */
  function Entry(p: Precision): (e: Entry)
    ensures RoutineOf(e) == Xcopy && EntryPrecision(e) == p
  {
    match p
    case F32 => CLBlastScopy
    case F64 => CLBlastDcopy
    case Complex32 => CLBlastCcopy
    case Complex64 => CLBlastZcopy
  }

  /** `run` for every scalar type: the guard and argument order of `swap`, on the copy entry points. */
  function Run(d: VectorPair, status: int): (r: Guarded<Invocation>)
    ensures r.Panic? <==> d.x.buffer.len <= d.n * d.xStride || d.y.buffer.len <= d.n * d.yStride
    ensures r.Panic? ==> r == Panic(if LongerThan(d.x, d.n, d.xStride) then YTooShort else XTooShort)
    ensures r.Returned? ==> r.value.call.entry == Entry(d.precision) && r.value.call.queue == d.queue
    ensures r.Returned? ==> PairArgs(r.value.call.args, d.n, d.x.buffer, d.x.offset, d.xStride,
                                     d.y.buffer, d.y.offset, d.yStride)
    ensures r.Returned? ==> r.value.result == ErrorFromCEither(status)
  {
    RunPair(Entry(d.precision), d, status)
  }

  /** Each scalar type reaches its own entry point. */
  lemma EntryInjective(p: Precision, q: Precision)
    requires Entry(p) == Entry(q)
    ensures p == q
  {
  }

  /**
   * The offsets play no part in the guard: a vector starting past the end
   * of its buffer is still accepted.
   */
  lemma OffsetsNotChecked(d: VectorPair, xOffset: nat, yOffset: nat, status: int)
    ensures Run(d.(x := d.x.(offset := xOffset), y := d.y.(offset := yOffset)), status).Panic?
        <==> Run(d, status).Panic?
  {
  }
}
