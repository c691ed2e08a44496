/** The shared vocabulary of the try-on client: the pipeline stage enum
    (types.ts) and an optional value standing for TypeScript's `T | null`. */
module Types {

  /** The six stages a try-on session can be in. The first five are listed in
      the order one run passes through them; ERROR ends a failed run. */
  datatype PipelineStage = Idle | Segmentation | Warping | Generation | Complete | Error

  /** `T | null` in the source. */
  datatype Option<T> = None | Some(value: T)

  /** The three stages during which a run is in progress. */
  predicate IsWorking(stage: PipelineStage) {
    stage == Segmentation || stage == Warping || stage == Generation
  }
}
