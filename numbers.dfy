/** Facts about real arithmetic shared by the averaging code. */
module Numbers {

  /** A sum of `n` values each in `[lo, hi]` has its mean in `[lo, hi]`. */
  lemma MeanBounds(sum: real, n: real, lo: real, hi: real)
    requires n > 0.0 && n * lo <= sum <= n * hi
    ensures lo <= sum / n <= hi
  {
    assert sum / n - lo == (sum - n * lo) / n;
    assert hi - sum / n == (n * hi - sum) / n;
  }
}
