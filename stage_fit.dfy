/** The size the `enter-vr` handler gives the plane that shows the Scratch
    stage in VR. The camera's view at distance 1 is `cameraHeight` high
    (2*tan(fov/2), taken here as an input) and `cameraHeight * canvasAspect`
    wide. */
module StageFit {

  datatype Size = Size(width: real, height: real)

  /** The first step: a rectangle with the stage's aspect ratio that
      covers the camera's view, touching it in one dimension. */
  function AspectFit(cameraHeight: real, canvasAspect: real, stageAspect: real): (r: Size)
    requires cameraHeight > 0.0 && canvasAspect > 0.0 && stageAspect > 0.0
    ensures r.height > 0.0 && r.width == r.height * stageAspect
    ensures r.width >= cameraHeight * canvasAspect && r.height >= cameraHeight
    ensures r.width == cameraHeight * canvasAspect || r.height == cameraHeight
  {
    var height := cameraHeight;
    var width := height * canvasAspect;
    if stageAspect > canvasAspect then Size(height * stageAspect, height)
    else Size(width, width / stageAspect)
  }

  /** The plane's final size as the handler computes it: the larger
      dimension loses what the smaller one exceeds the camera by. What this
      keeps is the difference width - height, not the ratio. */
  function FitPlane(cameraHeight: real, canvasAspect: real, stageAspect: real): (r: Size)
    requires cameraHeight > 0.0 && canvasAspect > 0.0 && stageAspect > 0.0
    ensures var fit := AspectFit(cameraHeight, canvasAspect, stageAspect);
            && r.width - r.height == fit.width - fit.height
            && (fit.width > fit.height ==> r.height == cameraHeight)
            && (fit.height > fit.width ==> r.width == cameraHeight * canvasAspect)
            && (fit.width == fit.height ==> r == fit)
  {
    var cameraWidth := cameraHeight * canvasAspect;
    var fit := AspectFit(cameraHeight, canvasAspect, stageAspect);
    var width, height := fit.width, fit.height;
    if width > height then
      Size(width - (height - cameraHeight), height - (height - cameraHeight))
    else if height > width then
      Size(width - (width - cameraWidth), height - (width - cameraWidth))
    else
      Size(width, height)
  }

  /** A wide window (aspect 2) and the 4:3 Scratch stage: the plane comes
      out 3 x 2, a ratio of 3/2 instead of the stage's 4/3. */
  lemma FitPlaneDistortsRatio()
    ensures FitPlane(2.0, 2.0, 4.0 / 3.0) == Size(3.0, 2.0)
    ensures FitPlane(2.0, 2.0, 4.0 / 3.0).width != FitPlane(2.0, 2.0, 4.0 / 3.0).height * (4.0 / 3.0)
  {
    assert AspectFit(2.0, 2.0, 4.0 / 3.0) == Size(4.0, 3.0);
  }

  /** The fit the handler's comment describes: scale the aspect fit
      uniformly so that its smaller dimension matches the camera's. */
  function FitPlaneKeepingRatio(cameraHeight: real, canvasAspect: real, stageAspect: real): (r: Size)
    requires cameraHeight > 0.0 && canvasAspect > 0.0 && stageAspect > 0.0
    ensures r.height > 0.0 && r.width == r.height * stageAspect
    ensures var fit := AspectFit(cameraHeight, canvasAspect, stageAspect);
            && (fit.width > fit.height ==> r.height == cameraHeight)
            && (fit.height > fit.width ==> r.width == cameraHeight * canvasAspect)
            && (fit.width == fit.height ==> r == fit)
  {
    var cameraWidth := cameraHeight * canvasAspect;
    var fit := AspectFit(cameraHeight, canvasAspect, stageAspect);
    if fit.width > fit.height then
      var k := cameraHeight / fit.height;
      assert fit.height * k == cameraHeight;
      assert fit.width * k == (fit.height * k) * stageAspect;
      Size(fit.width * k, cameraHeight)
    else if fit.height > fit.width then
      var k := cameraWidth / fit.width;
      assert fit.width * k == cameraWidth;
      assert cameraWidth == (fit.height * k) * stageAspect;
      assert fit.height * k > 0.0;
      Size(cameraWidth, fit.height * k)
    else
      fit
  }

  /** The two agree whenever the stage is wider than both the canvas and a
      square: the aspect fit is then already camera-high and landscape. */
  lemma FitPlaneAgreesForWideStage(cameraHeight: real, canvasAspect: real, stageAspect: real)
    requires cameraHeight > 0.0 && canvasAspect > 0.0 && stageAspect > 0.0
    requires stageAspect > canvasAspect && stageAspect >= 1.0
    ensures FitPlane(cameraHeight, canvasAspect, stageAspect)
         == FitPlaneKeepingRatio(cameraHeight, canvasAspect, stageAspect)
  {
  }
}
