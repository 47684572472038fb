/** The two vector-store settings the chat handler passes to every search
    (vdb/configs.py). */
module VdbConfig {

  /** `topk`: how many nearest entries to ask the store for. */
  const TopK: nat := 5

  /** `threshold`: hits at this distance or farther are dropped. */
  const Threshold: real := 1.7
}
