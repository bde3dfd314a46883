/** The file-upload composable: two preview slots holding data URLs. The
    browser's FileReader is the function `readAsDataUrl`, and its load is
    taken to complete before the next operation. */
module UseFileUpload {
  import opened Base

  /** The refs `preview1` and `preview2` that `useFileUpload()` returns. */
  class Previews {
    var preview1: Option<string>
    var preview2: Option<string>

    /** `useFileUpload()`: both previews start as null. */
    constructor ()
      ensures preview1 == None && preview2 == None
    {
      preview1, preview2 := None, None;
    }

    /** `handleImageUpload(event, imageNumber)`: reads only the first file of
        the selection into slot 1 when imageNumber is 1 and into slot 2
        otherwise; an empty selection changes neither slot. */
    method HandleImageUpload<File>(files: seq<File>, imageNumber: int, readAsDataUrl: File -> string)
      modifies this
      ensures files == [] ==> preview1 == old(preview1) && preview2 == old(preview2)
      ensures files != [] && imageNumber == 1 ==>
        preview1 == Some(readAsDataUrl(files[0])) && preview2 == old(preview2)
      ensures files != [] && imageNumber != 1 ==>
        preview2 == Some(readAsDataUrl(files[0])) && preview1 == old(preview1)
    {
      if files != [] {
        var file := files[0];
        var result := readAsDataUrl(file);
        if imageNumber == 1 {
          preview1 := Some(result);
        } else {
          preview2 := Some(result);
        }
      }
    }

    /** `resetPreviews()`: both slots back to null. */
    method ResetPreviews()
      modifies this
      ensures preview1 == None && preview2 == None
    {
      preview1, preview2 := None, None;
    }
  }
}
