/** hresult_to_string and THROW_IF_FAILED of the rhi Direct3D 12 layer. An
    HRESULT is a signed 32-bit value; FAILED(hr) is hr < 0. The code values
    are those of the Windows SDK headers (winerror.h, d3d12.h, dxgi.h),
    written here as signed 32-bit numbers. */
module HResults {
  import opened Wrappers

  const I32Min: int := -0x8000_0000
  const I32Max: int := 0x7fff_ffff
  type HResult = x: int | I32Min <= x <= I32Max

  /** An HRESULT from its unsigned 32-bit spelling. */
  function FromBits(u: nat): HResult
    requires u < 0x1_0000_0000
  {
    if u < 0x8000_0000 then u else u - 0x1_0000_0000
  }

  const S_OK: HResult := 0
  const S_FALSE: HResult := 1
  const E_FAIL: HResult := FromBits(0x8000_4005)
  const E_INVALIDARG: HResult := FromBits(0x8007_0057)
  const E_OUTOFMEMORY: HResult := FromBits(0x8007_000E)
  const E_NOTIMPL: HResult := FromBits(0x8000_4001)
  const D3D12_ERROR_ADAPTER_NOT_FOUND: HResult := FromBits(0x887E_0001)
  const D3D12_ERROR_DRIVER_VERSION_MISMATCH: HResult := FromBits(0x887E_0002)
  const DXGI_ERROR_INVALID_CALL: HResult := FromBits(0x887A_0001)
  const DXGI_ERROR_WAS_STILL_DRAWING: HResult := FromBits(0x887A_000A)

  const UnknownError: string := "An unknown error has occurred"

  /** The codes the switch names, in its order. */
  const Listed: seq<HResult> := [E_FAIL, E_INVALIDARG, E_OUTOFMEMORY, E_NOTIMPL, S_FALSE, S_OK,
    D3D12_ERROR_ADAPTER_NOT_FOUND, D3D12_ERROR_DRIVER_VERSION_MISMATCH,
    DXGI_ERROR_INVALID_CALL, DXGI_ERROR_WAS_STILL_DRAWING]

  /** The message of each listed code, in the same order. The two messages
      of equal length are each written as two literals, so that the verifier
      can compare their first characters. */
  const Messages: seq<string> := [
    "Attempted to create a device " + "with the debug layer enabled and the layer is not installed",
    "An invalid parameter was passed to the returning function",
    "Direct3D could not allocate sufficient memory to complete the call",
    "The method call isn't implemented with the passed parameter combination",
    "Alternate success value, indicating a successful but nonstandard completion",
    "No error occurred",
    "The specified cached PSO was created on a different adapter and cannot be reused on the current adapter",
    "The specified cached PSO was created on a different driver version and cannot be reused on the current adapter",
    "The method call is invalid. " + "For example, a method's parameter may not be a valid pointer",
    "The previous blit operation that is transferring information to or from this surface is incomplete"]

  /** hresult_to_string: the listed code's message, or the unknown-error text
      for every other code. It is total. */
  function HResultToString(hr: HResult): (s: string)
    ensures forall i :: 0 <= i < |Listed| && hr == Listed[i] ==> s == Messages[i]
    ensures hr !in Listed ==> s == UnknownError
  {
    if hr == E_FAIL then Messages[0]
    else if hr == E_INVALIDARG then Messages[1]
    else if hr == E_OUTOFMEMORY then Messages[2]
    else if hr == E_NOTIMPL then Messages[3]
    else if hr == S_FALSE then Messages[4]
    else if hr == S_OK then Messages[5]
    else if hr == D3D12_ERROR_ADAPTER_NOT_FOUND then Messages[6]
    else if hr == D3D12_ERROR_DRIVER_VERSION_MISMATCH then Messages[7]
    else if hr == DXGI_ERROR_INVALID_CALL then Messages[8]
    else if hr == DXGI_ERROR_WAS_STILL_DRAWING then Messages[9]
    else UnknownError
  }

  /** The messages differ from one another and from the unknown-error text. */
  lemma MessagesDistinct()
    ensures forall i :: 0 <= i < |Messages| ==> Messages[i] != UnknownError
    ensures forall i, j :: 0 <= i < j < |Messages| ==> Messages[i] != Messages[j]
  {
    assert |UnknownError| == 29;
    assert forall i :: 0 <= i < |Messages| ==> |Messages[i]| != 29;
    assert Messages[0][0] == 'A' && Messages[8][0] == 'T';
  }

  /** The message identifies the code it came from: a listed code shares its
      message with no other code. */
  lemma MessagesIdentifyCodes(a: HResult, b: HResult)
    requires HResultToString(a) == HResultToString(b)
    requires a in Listed
    ensures a == b
  {
    MessagesDistinct();
    var i :| 0 <= i < |Listed| && Listed[i] == a;
    if b in Listed {
      var j :| 0 <= j < |Listed| && Listed[j] == b;
      assert Messages[i] == Messages[j];
    }
  }

  /** S_OK and S_FALSE are the only listed codes that do not fail. */
  lemma OnlySuccessCodesDoNotFail()
    ensures forall i :: 0 <= i < |Listed| ==> (Listed[i] >= 0 <==> Listed[i] == S_OK || Listed[i] == S_FALSE)
  {
  }

  /** THROW_IF_FAILED: throws core::Exception with the code's message exactly
      when FAILED(hr); success codes, S_FALSE included, pass. */
  function ThrowIfFailed(hr: HResult): (r: Result<()>)
    ensures r.Err? <==> hr < 0
    ensures r.Err? ==> r.message == HResultToString(hr)
  {
    if hr < 0 then Err(HResultToString(hr)) else Ok(())
  }
}
