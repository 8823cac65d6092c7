/**
 * Chart images and the renderers that produce them. `ChartGenerator` is not part of this model:
 * each renderer is a parameter that yields an image or throws.
 */
module Charts {
  import opened Wrappers
  import opened Entities
  import opened ErrorHandler

  /** A rendered chart, as its pixels. */
  datatype Bitmap = Bitmap(pixels: seq<int>)

  /** The feeding renderers the statistics screen calls; the comparison chart is always by amount. */
  datatype ChartGenerator = ChartGenerator(
    feedingScatter: seq<FeedingRecord> -> Result<Bitmap, Throwable>,
    feedingArea: seq<FeedingRecord> -> Result<Bitmap, Throwable>,
    periodComparison: (seq<FeedingRecord>, seq<FeedingRecord>) -> Result<Bitmap, Throwable>)
}
