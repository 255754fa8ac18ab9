/** The extra-volume step of `run_pyLAR` (Script/LowRankImageDecomposition.py): when a
    volume node is passed along with the configuration file, it is saved as
    `ExtraImage.nrrd` in the result directory, its index is appended to the
    configuration's selection and its path to the list of image files. */
module ExtraImage {
  import opened Wrappers
  import opened PyText

  const ExtraImageName: string := "ExtraImage.nrrd"

  /** Every selection index names an existing image file. */
  predicate SelectionInRange(selection: seq<int>, imageFiles: seq<string>)
  {
    forall k :: 0 <= k < |selection| ==> 0 <= selection[k] < |imageFiles|
  }

  /** The selection and file list after appending one more image: the new last
      selection index names the new file, earlier entries are untouched, and a
      selection that named existing files still names the same ones. */
  function WithExtraImage(selection: seq<int>, imageFiles: seq<string>, path: string): (r: (seq<int>, seq<string>))
    ensures |r.0| == |selection| + 1 && |r.1| == |imageFiles| + 1
    ensures r.0[..|selection|] == selection && r.1[..|imageFiles|] == imageFiles
    ensures r.0[|selection|] == |imageFiles| && r.1[|imageFiles|] == path
    ensures SelectionInRange(selection, imageFiles) ==>
              SelectionInRange(r.0, r.1) &&
              forall k :: 0 <= k < |selection| ==> r.1[r.0[k]] == imageFiles[selection[k]]
  {
    (selection + [|imageFiles|], imageFiles + [path])
  }

  /** The two lists `run_pyLAR` updates in place: `config.selection` and `im_fns`. */
  class RunInputs {
    var selection: seq<int>
    var imageFiles: seq<string>

    constructor (selection: seq<int>, imageFiles: seq<string>)
      ensures this.selection == selection && this.imageFiles == imageFiles
    {
      this.selection := selection;
      this.imageFiles := imageFiles;
    }

    /** Appends the saved node, if one was given; saving it to disk is not modelled. */
    method AddExtraNode(node: Option<string>, resultDir: string)
      modifies this
      ensures node.None? ==> selection == old(selection) && imageFiles == old(imageFiles)
      ensures node.Some? ==>
                (selection, imageFiles) == WithExtraImage(old(selection), old(imageFiles), PathJoin(resultDir, ExtraImageName))
    {
      if node.Some? {
        var extraImageFileName := PathJoin(resultDir, ExtraImageName);
        selection := selection + [|imageFiles|];
        imageFiles := imageFiles + [extraImageFileName];
      }
    }
  }
}
